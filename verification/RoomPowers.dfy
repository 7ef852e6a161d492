/**
 The powers of the owner. After any run the owner's commands, and no one else's, are obeyed; each changes
 what it is for and nothing besides. So does a departure.
 */
module RoomPowers {
  import opened Basics
  import opened Rooms
  import opened RoomDirectory
  import opened RoomSteps
  import opened RoomOwnership

  predicate Sits(r: Room, k: nat, peer: PeerId)
  {
    k < |r.peers| && r.peers[k].id == peer
  }

  ghost predicate Present(r: Room, peer: PeerId)
  {
    exists k: nat :: Sits(r, k, peer)
  }

  ghost predicate Presides(r: Room, peer: PeerId)
  {
    exists k: nat :: Sits(r, k, peer) && r.peers[k].isOwner
  }

  /** The operations that only the owner may call. */
  predicate IsCommand(op: Op)
  {
    op.KickOp? || op.TransferOp? || op.ExtendOp? || op.CloseOp? || op.DetonateOp? || op.RekeyOp? || op.LockOp? || op.ModerateOp?
  }

  function Caller(op: Op): PeerId
    requires IsCommand(op)
  {
    match op
    case ExtendOp(_, peer) => peer
    case CloseOp(_, peer) => peer
    case RekeyOp(_, peer, _) => peer
    case _ => op.operator
  }

  /** Why a command about a live room is refused, if it is: to strangers first, then for its own reasons. */
  ghost function Refusal(r: Room, op: Op): Option<RoomError>
    requires IsCommand(op)
  {
    if !Presides(r, Caller(op)) then Some(Unauthorized)
    else if (op.KickOp? || op.TransferOp?) && op.target == Caller(op) then Some(Unauthorized)
    else if (op.KickOp? || op.TransferOp? || op.ModerateOp?) && !Present(r, op.target) then Some(PeerNotFound(op.target))
    else if op.ExtendOp? && r.state != ExtendableWindow then Some(NotInExtendableWindow)
    else if (op.CloseOp? || op.RekeyOp?) && r.state in {Closing, Destroyed} then Some(RoomTerminated)
    else None
  }

  // What a command does, peer by peer.

  /** The peer is gone, the others keep their order, and nothing of it is left in the blocked sets. */
  ghost predicate Expelled(r: Room, s: Room, peer: PeerId)
  {
    && (exists k: nat :: Sits(r, k, peer) && s.peers == r.peers[..k] + r.peers[k + 1..])
    && s == r.(peers := s.peers, chatBlocked := r.chatBlocked - {peer}, fileBlocked := r.fileBlocked - {peer})
  }

  /** The heir presides alone, and its key is the room's. */
  ghost predicate HandedTo(r: Room, s: Room, heir: PeerId)
  {
    && |s.peers| == |r.peers| && (forall k :: 0 <= k < |r.peers| ==> s.peers[k] == r.peers[k].(isOwner := r.peers[k].id == heir))
    && (exists k: nat :: Sits(r, k, heir) && s.ownerRateKey == r.peers[k].rateKey)
    && s == r.(peers := s.peers, ownerRateKey := s.ownerRateKey)
  }

  ghost predicate MuteSet(r: Room, s: Room, peer: PeerId, muted: bool, until: Option<Timestamp>)
  {
    && |s.peers| == |r.peers| && s == r.(peers := s.peers)
    && forall k :: 0 <= k < |r.peers| ==>
         s.peers[k] == if r.peers[k].id == peer then r.peers[k].(isMuted := muted, mutedUntil := until) else r.peers[k]
  }

  ghost predicate BlockSet(was: set<PeerId>, now: set<PeerId>, peer: PeerId, blocked: bool)
  {
    forall p :: p in now <==> if p == peer then blocked else p in was
  }

  ghost predicate Obeyed(c: Config, r: Room, s: Room, op: Op, now: Timestamp)
    requires IsCommand(op)
  {
    match op
    case KickOp(_, _, target) => Expelled(r, s, target)
    case TransferOp(_, _, heir) => HandedTo(r, s, heir)
    case ExtendOp(_, _) =>
      s == r.(state := Active, expiresAt := r.expiresAt + c.extensionDuration, extensionCount := r.extensionCount + 1)
    case CloseOp(_, _) => s == r.(state := Closing, closingDeadline := Some(now + c.closingGrace))
    case RekeyOp(_, _, secret) => s == r.(password := Password(true, Some(secret)))
    case LockOp(_, _, locked) => s == r.(isLocked := locked)
    case ModerateOp(_, _, target, moderation) =>
      (match moderation
       case BlockChat(blocked) => s == r.(chatBlocked := s.chatBlocked) && BlockSet(r.chatBlocked, s.chatBlocked, target, blocked)
       case BlockFiles(blocked) => s == r.(fileBlocked := s.fileBlocked) && BlockSet(r.fileBlocked, s.fileBlocked, target, blocked)
       case Mute(until) => MuteSet(r, s, target, true, until)
       case Unmute => MuteSet(r, s, target, false, None))
    case _ => false
  }

  /** What the manager answers to a command. */
  function Answer(c: Config, d: Directory, op: Op, now: Timestamp): Option<RoomError>
    requires IsCommand(op)
  {
    match op
    case KickOp(id, operator, target) => ErrorOf(Kick(d, id, operator, target).1)
    case TransferOp(id, operator, heir) => ErrorOf(Transfer(d, id, operator, heir).1)
    case ExtendOp(id, peer) => ExtendRoom(c, d, id, peer).1
    case CloseOp(id, peer) => CloseRoom(c, d, id, peer, now).1
    case DetonateOp(id, operator) => Detonate(d, id, operator).1
    case RekeyOp(id, peer, secret) => RekeyRoom(d, id, peer, secret).1
    case LockOp(id, operator, locked) => LockRoom(d, id, operator, locked).1
    case ModerateOp(id, operator, target, moderation) => Moderate(d, id, operator, target, moderation).1
  }

  function ErrorOf<T>(result: Result<T, RoomError>): Option<RoomError>
  {
    match result
    case Success(_) => None
    case Failure(e) => Some(e)
  }

  // The same in the terms of the code.

  lemma PresentIs(r: Room, peer: PeerId)
    ensures Present(r, peer) <==> r.HasPeer(peer)
    ensures Presides(r, peer) <==> r.IsOwner(peer)
  {
    if r.HasPeer(peer) {
      var i :| 0 <= i < |r.peers| && r.peers[i].id == peer;
      assert Sits(r, i, peer);
    }
    if Presides(r, peer) {
      var k: nat :| Sits(r, k, peer) && r.peers[k].isOwner;
      assert r.peers[k].id == peer;
    }
    if r.IsOwner(peer) {
      var i :| 0 <= i < |r.peers| && r.peers[i].id == peer && r.peers[i].isOwner;
      assert Sits(r, i, peer);
    }
  }

  /** Where one peer at most is the owner, permission is ownership. */
  lemma PermittedPresides(r: Room, peer: PeerId)
    requires Owned(r) || Ownerless(r)
    ensures r.HasPermission(peer) <==> Presides(r, peer)
  {
    PresentIs(r, peer);
    FirstOwnerIs(r.peers);
  }

  lemma Kicked(c: Config, r: Room, peer: PeerId, now: Timestamp)
    requires WellKept(c, r, now) && Present(r, peer)
    ensures r.HasPeer(peer) && Expelled(r, WithoutPeer(r, peer), peer)
  {
    PresentIs(r, peer);
    HasPeerPosition(r, peer);
    assert Sits(r, Position(r.peers, peer), peer);
  }

  lemma Handed(c: Config, r: Room, heir: PeerId, now: Timestamp)
    requires WellKept(c, r, now) && Present(r, heir)
    ensures r.HasPeer(heir) && HandedTo(r, WithOwner(r, heir), heir)
  {
    PresentIs(r, heir);
    HasPeerPosition(r, heir);
    KeyOfPosition(r.peers, Position(r.peers, heir));
    assert Sits(r, Position(r.peers, heir), heir);
  }

  lemma Muted(c: Config, r: Room, peer: PeerId, muted: bool, until: Option<Timestamp>, now: Timestamp)
    requires WellKept(c, r, now) && Present(r, peer)
    ensures SetMute(r, peer, muted, until).Success? && MuteSet(r, SetMute(r, peer, muted, until).value, peer, muted, until)
  {
    PresentIs(r, peer);
    HasPeerPosition(r, peer);
  }

  lemma ModeratedIs(c: Config, r: Room, target: PeerId, m: Moderation, op: Op, now: Timestamp)
    requires WellKept(c, r, now) && op.ModerateOp? && op.target == target && op.moderation == m
    ensures if Present(r, target) then Moderated(r, target, m).Success? && Obeyed(c, r, Moderated(r, target, m).value, op, now)
            else Moderated(r, target, m) == Failure(PeerNotFound(target))
  {
    PresentIs(r, target);
    if Present(r, target) {
      hide Present, WellKept;
      match m
      case Mute(until) => Muted(c, r, target, true, until, now);
      case Unmute => Muted(c, r, target, false, None, now);
      case _ =>
    }
  }

  /** A command about a live room, alone. */
  ghost predicate CommandDone(c: Config, d: Directory, op: Op, now: Timestamp)
    requires IsCommand(op) && op.id in d.rooms
  {
    var r, z := d.rooms[op.id], Apply(c, d, Event(now, op));
    && Answer(c, d, op, now) == Refusal(r, op)
    && if Refusal(r, op).Some? then z == d
       else if op.DetonateOp? then z == Directory(d.rooms - {op.id}, d.index - {r.code})
       else
         && z.index == d.index && z.rooms.Keys == d.rooms.Keys && Obeyed(c, r, z.rooms[op.id], op, now)
         && forall other :: other in d.rooms && other != op.id ==> z.rooms[other] == d.rooms[other]
  }

  lemma KickIs(c: Config, d: Directory, op: Op, now: Timestamp)
    requires op.KickOp? && op.id in d.rooms && WellKept(c, d.rooms[op.id], now)
    requires Owned(d.rooms[op.id]) || Ownerless(d.rooms[op.id])
    ensures CommandDone(c, d, op, now)
  {
    hide Presides, Present, WellKept, Owned, Ownerless, Expelled, WithoutPeer;
    var r := d.rooms[op.id];
    PermittedPresides(r, op.operator);
    PresentIs(r, op.target);
    if Present(r, op.target) {
      Kicked(c, r, op.target, now);
    }
  }

  lemma TransferIs(c: Config, d: Directory, op: Op, now: Timestamp)
    requires op.TransferOp? && op.id in d.rooms && WellKept(c, d.rooms[op.id], now)
    requires Owned(d.rooms[op.id]) || Ownerless(d.rooms[op.id])
    ensures CommandDone(c, d, op, now)
  {
    hide Presides, Present, WellKept, Owned, Ownerless, HandedTo, WithOwner;
    var r := d.rooms[op.id];
    PermittedPresides(r, op.operator);
    PresentIs(r, op.target);
    if Present(r, op.target) {
      Handed(c, r, op.target, now);
    }
  }

  lemma ModerateIs(c: Config, d: Directory, op: Op, now: Timestamp)
    requires op.ModerateOp? && op.id in d.rooms && WellKept(c, d.rooms[op.id], now)
    requires Owned(d.rooms[op.id]) || Ownerless(d.rooms[op.id])
    ensures CommandDone(c, d, op, now)
  {
    hide Presides, Present, WellKept, Owned, Ownerless, Obeyed, Moderated;
    var r := d.rooms[op.id];
    PermittedPresides(r, op.operator);
    ModeratedIs(c, r, op.target, op.moderation, op, now);
  }

  lemma CommandIs(c: Config, d: Directory, op: Op, now: Timestamp)
    requires IsCommand(op) && op.id in d.rooms && WellKept(c, d.rooms[op.id], now)
    requires Owned(d.rooms[op.id]) || Ownerless(d.rooms[op.id])
    ensures CommandDone(c, d, op, now)
  {
    if op.KickOp? {
      hide *;
      KickIs(c, d, op, now);
    } else if op.TransferOp? {
      hide *;
      TransferIs(c, d, op, now);
    } else if op.ModerateOp? {
      hide *;
      ModerateIs(c, d, op, now);
    } else {
      hide Presides, Present, WellKept, Owned, Ownerless, Expelled, HandedTo, WithoutPeer, WithOwner, Moderated, FirstOwner;
      PermittedPresides(d.rooms[op.id], Caller(op));
      PresentIs(d.rooms[op.id], Caller(op));
    }
  }

  /**
   After any run a command is answered with the first refusal that applies, or obeyed: only the present
   owner may command at all, an obeyed command changes its room as it should, and nothing else moves.
   */
  lemma {:induction false} OwnersCommand(c: Config, es: seq<Event>, op: Op, now: Timestamp)
    requires Legal(es) && es != [] && Clock(es) <= now && c.maxParticipants >= 1 && IsCommand(op)
    ensures var d := Run(c, EMPTY, es);
            if op.id in d.rooms then CommandDone(c, d, op, now)
            else Answer(c, d, op, now).Some? && Apply(c, d, Event(now, op)) == d
  {
    var d := Run(c, EMPTY, es);
    if op.id in d.rooms {
      hide Run, CommandDone;
      OwnershipInvariant(c, es);
      LaterKept(c, d.rooms[op.id], Clock(es), now);
      CommandIs(c, d, op, now);
    }
  }

  // Departures.

  /** The departing peer is gone; if it was the owner, the first of the rest presides with its own key. */
  ghost predicate Departed(r: Room, s: Room, k: nat)
    requires k < |r.peers| && |r.peers| > 1
  {
    var rest := r.peers[..k] + r.peers[k + 1..];
    && |s.peers| == |rest|
    && (forall j :: 0 <= j < |rest| ==> s.peers[j] == if r.peers[k].isOwner then rest[j].(isOwner := j == 0) else rest[j])
    && s == r.(peers := s.peers, ownerRateKey := if r.peers[k].isOwner then rest[0].rateKey else r.ownerRateKey,
               chatBlocked := r.chatBlocked - {r.peers[k].id}, fileBlocked := r.fileBlocked - {r.peers[k].id})
  }

  lemma {:induction false} DepartedIs(c: Config, r: Room, peer: PeerId, now: Timestamp)
    requires WellKept(c, r, now) && r.HasPeer(peer) && WithoutPeer(r, peer).peers != []
    ensures Position(r.peers, peer) < |r.peers| && |r.peers| > 1
    ensures Departed(r, AfterLeave(r, peer), Position(r.peers, peer))
  {
    HasPeerPosition(r, peer);
    WithoutPeerKept(c, r, peer, now);
    var rest := WithoutPeer(r, peer);
    PositionOf(rest.peers, 0);
    KeyOfPosition(rest.peers, 0);
    assert rest.HasPeer(rest.peers[0].id);
  }

  /** The room loses the peer at `k`, and goes with it if that was the last; nothing else moves. */
  ghost predicate LeftBy(d: Directory, z: Directory, outcome: Option<LeaveOutcome>, id: RoomId, k: nat)
    requires id in d.rooms && k < |d.rooms[id].peers|
  {
    var r := d.rooms[id];
    if |r.peers| == 1 then
      && z == Directory(d.rooms - {id}, d.index - {r.code})
      && outcome == Some(LeaveOutcome(r.peers[k].isOwner, None, true, r.code))
    else
      && z.index == d.index && z.rooms.Keys == d.rooms.Keys && Departed(r, z.rooms[id], k)
      && (forall other :: other in d.rooms && other != id ==> z.rooms[other] == d.rooms[other])
      && outcome == Some(LeaveOutcome(r.peers[k].isOwner,
                                      if r.peers[k].isOwner then Some(z.rooms[id].peers[0].id) else None, false, r.code))
  }

  lemma {:induction false} LeaveIs(c: Config, d: Directory, id: RoomId, peer: PeerId, now: Timestamp)
    requires id in d.rooms && WellKept(c, d.rooms[id], now) && d.rooms[id].HasPeer(peer)
    ensures Sits(d.rooms[id], Position(d.rooms[id].peers, peer), peer)
    ensures LeftBy(d, Leave(d, id, peer).0, Leave(d, id, peer).1, id, Position(d.rooms[id].peers, peer))
  {
    var r := d.rooms[id];
    HasPeerPosition(r, peer);
    if WithoutPeer(r, peer).peers != [] {
      DepartedIs(c, r, peer, now);
      assert AfterLeave(r, peer).peers[0].id == WithoutPeer(r, peer).peers[0].id;
      hide Departed, AfterLeave, WellKept;
    }
  }

  /** After any run a peer that leaves is gone, and its room with it if it was the last; nothing else moves. */
  lemma {:induction false} PeersLeave(c: Config, es: seq<Event>, id: RoomId, peer: PeerId, now: Timestamp)
    requires Legal(es) && es != [] && Clock(es) <= now && c.maxParticipants >= 1
    ensures var d := Run(c, EMPTY, es);
            var (z, outcome) := Leave(d, id, peer);
            if id in d.rooms && Present(d.rooms[id], peer)
            then exists k: nat :: Sits(d.rooms[id], k, peer) && LeftBy(d, z, outcome, id, k)
            else z == d && outcome.None?
  {
    var d := Run(c, EMPTY, es);
    hide Run, LeftBy, Sits;
    OwnershipInvariant(c, es);
    if id in d.rooms {
      LaterKept(c, d.rooms[id], Clock(es), now);
      PresentIs(d.rooms[id], peer);
      if Present(d.rooms[id], peer) {
        hide Leave, WellKept, Present;
        LeaveIs(c, d, id, peer, now);
      }
    }
  }
}
