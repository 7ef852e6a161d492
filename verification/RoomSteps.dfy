/** Runs of the room directory, seen one room at a time. */
module RoomSteps {
  import opened Basics
  import opened Rooms
  import opened RoomDirectory

  /** The clock never goes back and no room id is handed out twice. */
  ghost predicate Legal(es: seq<Event>)
  {
    && (forall i, j :: 0 <= i < j < |es| ==> es[i].now <= es[j].now)
    && (forall i, j :: 0 <= i < j < |es| && es[i].op.CreateOp? && es[j].op.CreateOp? ==> es[i].op.id != es[j].op.id)
  }

  function Created(es: seq<Event>): set<RoomId>
  {
    set i | 0 <= i < |es| && es[i].op.CreateOp? :: es[i].op.id
  }

  function Clock(es: seq<Event>): Timestamp
    requires es != []
  {
    es[|es| - 1].now
  }

  /** What an event can turn a live room `r` into, when the room stays live. */
  ghost predicate Becomes(c: Config, r: Room, s: Room, e: Event)
  {
    s == r ||
    match e.op
    case CreateOp(_, _, _, _, _, _, _, _) => false
    case RotateOp(_, _, at) => r.hopping && s == r.(code := s.code, lastRotation := at)
    case JoinOp(_, peer, secret, key) => AddPeer(c, r, peer, false, secret, e.now, key) == Success(s)
    case LeaveOp(_, peer) => r.HasPeer(peer) && WithoutPeer(r, peer).peers != [] && s == AfterLeave(r, peer)
    case KickOp(_, operator, target) =>
      r.HasPermission(operator) && operator != target && r.HasPeer(target) && s == WithoutPeer(r, target)
    case TransferOp(_, operator, heir) => r.HasPermission(operator) && r.HasPeer(heir) && s == WithOwner(r, heir)
    case ExtendOp(_, peer) => Extend(c, r, peer) == Success(s)
    case CloseOp(_, peer) => Close(c, r, peer, e.now) == Success(s)
    case DetonateOp(_, _) => false
    case RekeyOp(_, peer, secret) => Rekey(r, peer, secret) == Success(s)
    case LockOp(_, _, locked) => s == r.(isLocked := locked)
    case ModerateOp(_, _, target, moderation) => Moderated(r, target, moderation) == Success(s)
    case TickOp => !Dies(c, r, e.now) && s == Swept(c, r, e.now).0
  }

  /** The room a create event makes. */
  function Newborn(c: Config, e: Event, code: RoomCode): Room
    requires e.op.CreateOp?
  {
    NewRoom(c, e.op.id, code, e.op.owner, e.op.key, e.op.password, e.now, e.op.hopping, e.op.autoRotate, e.op.at)
  }

  lemma RoomAfter(c: Config, d: Directory, e: Event, id: RoomId)
    requires id in Apply(c, d, e).rooms
    requires e.op.CreateOp? ==> e.op.id !in d.rooms
    ensures id in d.rooms ==> Becomes(c, d.rooms[id], Apply(c, d, e).rooms[id], e)
    ensures id !in d.rooms ==>
      e.op.CreateOp? && id == e.op.id && Apply(c, d, e).rooms[id] == Newborn(c, e, Apply(c, d, e).rooms[id].code)
  {
  }

  lemma {:induction false} LiveWasCreated(c: Config, es: seq<Event>)
    ensures Run(c, EMPTY, es).rooms.Keys <= Created(es)
  {
    if es != [] {
      var before, e := es[..|es| - 1], es[|es| - 1];
      LiveWasCreated(c, before);
      CreatedGrows(before, e);
      assert before + [e] == es;
      forall id | id in Run(c, EMPTY, es).rooms
        ensures id in Created(es)
      {
        KeysAfter(c, Run(c, EMPTY, before), e, id);
      }
    }
  }

  lemma KeysAfter(c: Config, d: Directory, e: Event, id: RoomId)
    requires id in Apply(c, d, e).rooms
    ensures id in d.rooms || (e.op.CreateOp? && id == e.op.id)
  {
  }

  lemma CreatedGrows(es: seq<Event>, e: Event)
    ensures Created(es + [e]) == Created(es) + if e.op.CreateOp? then {e.op.id} else {}
  {
    var more := es + [e];
    forall id | id in Created(es)
      ensures id in Created(more)
    {
      var i :| 0 <= i < |es| && es[i].op.CreateOp? && es[i].op.id == id;
      assert more[i] == es[i];
    }
    assert more[|es|] == e;
  }

  /** In a legal run, a create event names an id that is not live. */
  lemma NextIsFresh(c: Config, es: seq<Event>)
    requires es != [] && Legal(es)
    ensures var e := es[|es| - 1]; e.op.CreateOp? ==> e.op.id !in Run(c, EMPTY, es[..|es| - 1]).rooms
  {
    LiveWasCreated(c, es[..|es| - 1]);
  }

  lemma LegalPrefix(es: seq<Event>, n: nat)
    requires Legal(es) && n <= |es|
    ensures Legal(es[..n])
  {
  }

  lemma {:induction false} RunUnfolds(c: Config, es: seq<Event>, n: nat)
    requires n < |es|
    ensures Run(c, EMPTY, es[..n + 1]) == Apply(c, Run(c, EMPTY, es[..n]), es[n])
  {
    assert es[..n + 1][..n] == es[..n];
  }
}
