/** The code index and the rooms agree after every run of the manager's operations. */
module RoomIndex {
  import opened Basics
  import opened Rooms
  import opened RoomDirectory
  import opened RoomSteps

  /** A code leads to a room exactly when that room is live and the code is its current one. */
  ghost predicate IndexAgrees(d: Directory)
  {
    forall code, id :: (code in d.index && d.index[code] == id) <==> (id in d.rooms && d.rooms[id].code == code)
  }

  lemma PutKeepsIndex(d: Directory, id: RoomId, r: Room)
    requires IndexAgrees(d) && id in d.rooms && r.code == d.rooms[id].code
    ensures IndexAgrees(Put(d, id, r))
  {
    var after := Put(d, id, r);
    forall code, other
      ensures (code in after.index && after.index[code] == other) <==> (other in after.rooms && after.rooms[other].code == code)
    {
    }
  }

  lemma DropKeepsIndex(d: Directory, id: RoomId)
    requires IndexAgrees(d) && id in d.rooms
    ensures IndexAgrees(Drop(d, id, d.rooms[id].code))
  {
    var after := Drop(d, id, d.rooms[id].code);
    forall code, other
      ensures (code in after.index && after.index[code] == other) <==> (other in after.rooms && after.rooms[other].code == code)
    {
      assert d.index[d.rooms[id].code] == id;
    }
  }

  lemma CreateKeepsIndex(c: Config, d: Directory, e: Event)
    requires IndexAgrees(d) && e.op.CreateOp? && e.op.id !in d.rooms
    ensures IndexAgrees(Apply(c, d, e))
  {
    var after := Apply(c, d, e);
    forall code, other
      ensures (code in after.index && after.index[code] == other) <==> (other in after.rooms && after.rooms[other].code == code)
    {
    }
  }

  lemma RotateKeepsIndex(d: Directory, id: RoomId, draws: seq<RoomCode>, at: Time)
    requires IndexAgrees(d)
    ensures IndexAgrees(Rotate(d, id, draws, at).0)
  {
    var after := Rotate(d, id, draws, at).0;
    forall code, other
      ensures (code in after.index && after.index[code] == other) <==> (other in after.rooms && after.rooms[other].code == code)
    {
      if id in d.rooms {
        assert d.index[d.rooms[id].code] == id;
      }
    }
  }

  /** A tick takes a code out of the index exactly when the room it leads to dies. */
  lemma TickIndexAt(c: Config, d: Directory, now: Timestamp, code: RoomCode)
    requires IndexAgrees(d)
    ensures var after := Tick(c, d, now);
            && (code in after.index <==> code in d.index && !Dies(c, d.rooms[d.index[code]], now))
            && (code in after.index ==> after.index[code] == d.index[code])
  {
    var dropped := set id | id in d.rooms && Dies(c, d.rooms[id], now) :: d.rooms[id].code;
    if code in d.index && code in dropped {
      var dead :| dead in d.rooms && Dies(c, d.rooms[dead], now) && d.rooms[dead].code == code;
      assert d.index[code] == dead;
    }
  }

  lemma TickRoomAt(c: Config, d: Directory, now: Timestamp, id: RoomId)
    ensures var after := Tick(c, d, now);
            && (id in after.rooms <==> id in d.rooms && !Dies(c, d.rooms[id], now))
            && (id in after.rooms ==> after.rooms[id].code == d.rooms[id].code)
  {
    if id in d.rooms {
      SweepKeepsCode(c, d.rooms[id], now);
    }
  }

  /** Keeping some rooms under their codes, and exactly the index entries that lead to them, keeps the agreement. */
  lemma FewerRooms(d: Directory, z: Directory)
    requires IndexAgrees(d)
    requires forall id :: id in z.rooms ==> id in d.rooms && z.rooms[id].code == d.rooms[id].code
    requires forall code :: code in z.index <==> code in d.index && d.index[code] in z.rooms
    requires forall code :: code in z.index ==> z.index[code] == d.index[code]
    ensures IndexAgrees(z)
  {
  }

  lemma TickKeepsIndex(c: Config, d: Directory, now: Timestamp)
    requires IndexAgrees(d)
    ensures IndexAgrees(Tick(c, d, now))
  {
    var z := Tick(c, d, now);
    forall code
      ensures code in z.index <==> code in d.index && d.index[code] in z.rooms
      ensures code in z.index ==> z.index[code] == d.index[code]
    {
      TickIndexAt(c, d, now, code);
      if code in d.index {
        TickRoomAt(c, d, now, d.index[code]);
      }
    }
    forall id | id in z.rooms
      ensures id in d.rooms && z.rooms[id].code == d.rooms[id].code
    {
      TickRoomAt(c, d, now, id);
    }
    FewerRooms(d, z);
  }

  lemma BecomesKeepsCode(c: Config, r: Room, s: Room, e: Event)
    requires Becomes(c, r, s, e) && !e.op.RotateOp?
    ensures s.code == r.code
  {
    if e.op.TickOp? && s != r {
      SweepKeepsCode(c, r, e.now);
    }
  }

  /** An operation on one room that leaves it in place and its code alone. */
  predicate Stays(op: Op)
  {
    op.JoinOp? || op.KickOp? || op.TransferOp? || op.ExtendOp? || op.CloseOp? || op.RekeyOp? || op.LockOp? || op.ModerateOp?
  }

  lemma OneRoomOnly(c: Config, d: Directory, e: Event)
    requires Stays(e.op) && e.op.id in d.rooms
    ensures var after := Apply(c, d, e);
            e.op.id in after.rooms && after == Put(d, e.op.id, after.rooms[e.op.id])
  {
    hide AddPeer, WithoutPeer, WithOwner, Extend, Close, Rekey, Moderated;
  }

  lemma OneRoomKeepsIndex(c: Config, d: Directory, e: Event)
    requires IndexAgrees(d) && Stays(e.op)
    ensures IndexAgrees(Apply(c, d, e))
  {
    if e.op.id in d.rooms {
      hide Apply, Becomes, IndexAgrees;
      var after := Apply(c, d, e);
      OneRoomOnly(c, d, e);
      RoomAfter(c, d, e, e.op.id);
      BecomesKeepsCode(c, d.rooms[e.op.id], after.rooms[e.op.id], e);
      PutKeepsIndex(d, e.op.id, after.rooms[e.op.id]);
    }
  }

  lemma ApplyKeepsIndex(c: Config, d: Directory, e: Event)
    requires IndexAgrees(d)
    requires e.op.CreateOp? ==> e.op.id !in d.rooms
    ensures IndexAgrees(Apply(c, d, e))
  {
    match e.op
    case CreateOp(_, _, _, _, _, _, _, _) => CreateKeepsIndex(c, d, e);
    case RotateOp(id, draws, at) => RotateKeepsIndex(d, id, draws, at);
    case TickOp => TickKeepsIndex(c, d, e.now);
    case LeaveOp(id, peer) =>
      if id in d.rooms && d.rooms[id].HasPeer(peer) {
        if WithoutPeer(d.rooms[id], peer).peers == [] {
          DropKeepsIndex(d, id);
        } else {
          PutKeepsIndex(d, id, AfterLeave(d.rooms[id], peer));
        }
      }
    case DetonateOp(id, operator) =>
      if id in d.rooms {
        DropKeepsIndex(d, id);
      }
    case _ => OneRoomKeepsIndex(c, d, e);
  }

  /** Whether the operation reports an error (or, for a departure, that there was nobody to leave). */
  predicate Fails(c: Config, d: Directory, e: Event)
  {
    match e.op
    case CreateOp(id, draws, owner, key, password, hopping, autoRotate, at) =>
      Create(c, d, id, draws, owner, key, password, hopping, autoRotate, e.now, at).1.None?
    case RotateOp(id, draws, at) => Rotate(d, id, draws, at).1.Failure?
    case JoinOp(id, peer, secret, key) => Join(c, d, id, peer, false, secret, e.now, key).1.Some?
    case LeaveOp(id, peer) => Leave(d, id, peer).1.None?
    case KickOp(id, operator, target) => Kick(d, id, operator, target).1.Failure?
    case TransferOp(id, operator, target) => Transfer(d, id, operator, target).1.Failure?
    case ExtendOp(id, peer) => ExtendRoom(c, d, id, peer).1.Some?
    case CloseOp(id, peer) => CloseRoom(c, d, id, peer, e.now).1.Some?
    case DetonateOp(id, operator) => Detonate(d, id, operator).1.Some?
    case RekeyOp(id, peer, secret) => RekeyRoom(d, id, peer, secret).1.Some?
    case LockOp(id, operator, locked) => LockRoom(d, id, operator, locked).1.Some?
    case ModerateOp(id, operator, target, moderation) => Moderate(d, id, operator, target, moderation).1.Some?
    case TickOp => false
  }

  lemma FailureChangesNothing(c: Config, d: Directory, e: Event)
    requires Fails(c, d, e)
    ensures Apply(c, d, e) == d
  {
  }

  /**
   After any legal run a code is in the index with a room's id exactly when that room is live
   under that code, so no two live rooms share a code; and an operation that fails next changes nothing.
   */
  lemma {:induction false} IndexAgreement(c: Config, es: seq<Event>)
    requires Legal(es)
    ensures IndexAgrees(Run(c, EMPTY, es))
    ensures forall e :: Fails(c, Run(c, EMPTY, es), e) ==> Apply(c, Run(c, EMPTY, es), e) == Run(c, EMPTY, es)
  {
    hide Apply, Fails;
    if es != [] {
      LegalPrefix(es, |es| - 1);
      IndexAgreement(c, es[..|es| - 1]);
      NextIsFresh(c, es);
      ApplyKeepsIndex(c, Run(c, EMPTY, es[..|es| - 1]), es[|es| - 1]);
    }
    forall e | Fails(c, Run(c, EMPTY, es), e)
      ensures Apply(c, Run(c, EMPTY, es), e) == Run(c, EMPTY, es)
    {
      FailureChangesNothing(c, Run(c, EMPTY, es), e);
    }
  }
}
