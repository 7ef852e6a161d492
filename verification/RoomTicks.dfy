/** What a tick does to the rooms that a run has led to: who goes, who closes, and whose owner may extend. */
module RoomTicks {
  import opened Basics
  import opened Rooms
  import opened RoomDirectory
  import opened RoomSteps
  import opened RoomIndex
  import opened RoomLifetime
  import opened RoomPowers

  /** Deserted after it was opened, or closing and out of grace. */
  ghost predicate Doomed(r: Room, now: Timestamp)
  {
    (r.peers == [] && r.state != Creating) || (r.state == Closing && r.closingDeadline.Some? && r.closingDeadline.value <= now)
  }

  /** The state that a surviving room is left in follows from the time it has left. */
  function StateAt(c: Config, r: Room, now: Timestamp): Lifecycle
  {
    if r.state == Closing || r.expiresAt <= now then Closing
    else if r.expiresAt <= now + c.extendableThreshold then ExtendableWindow
    else r.state
  }

  /** A mute that has run out is lifted, and nothing else about the peer changes. */
  ghost predicate Relieved(p: Peer, q: Peer, now: Timestamp)
  {
    if p.isMuted && p.mutedUntil.Some? && p.mutedUntil.value <= now
    then q == Peer(p.id, p.isOwner, p.joinedAt, p.rateKey, false, None)
    else q == p
  }

  ghost predicate Aged(c: Config, r: Room, s: Room, now: Timestamp)
  {
    && s.state == StateAt(c, r, now)
    && s.closingDeadline == (if r.state != Closing && r.expiresAt <= now then Some(now + c.closingGrace) else r.closingDeadline)
    && |s.peers| == |r.peers| && (forall k :: 0 <= k < |r.peers| ==> Relieved(r.peers[k], s.peers[k], now))
    && s == r.(state := s.state, closingDeadline := s.closingDeadline, peers := s.peers)
  }

  lemma SweptAges(c: Config, r: Room, now: Timestamp)
    requires Timely(c, ClocksOf(r), now)
    ensures Dies(c, r, now) <==> Doomed(r, now)
    ensures !Doomed(r, now) ==> Aged(c, r, Swept(c, r, now).0, now)
  {
  }

  lemma {:induction false} TimelyLater(c: Config, es: seq<Event>, id: RoomId, now: Timestamp)
    requires Legal(es) && es != [] && Clock(es) <= now && id in Run(c, EMPTY, es).rooms
    ensures Timely(c, ClocksOf(Run(c, EMPTY, es).rooms[id]), now)
  {
    RunTimely(c, es);
  }

  lemma TickIndex(c: Config, d: Directory, code: RoomCode, now: Timestamp)
    requires IndexAgrees(d)
    ensures var z := Tick(c, d, now);
      && (code in z.index <==> code in d.index && d.index[code] in z.rooms)
      && (code in z.index ==> z.index[code] == d.index[code])
  {
    hide Swept, Dies;
  }

  /**
   A tick after any run removes the rooms that are deserted or out of grace, with the codes that led to
   them, and ages the others: closing at their expiry, open to extension from the threshold on.
   */
  lemma {:induction false} TickAges(c: Config, es: seq<Event>, id: RoomId, code: RoomCode, now: Timestamp)
    requires Legal(es) && es != [] && Clock(es) <= now
    ensures var d, z := Run(c, EMPTY, es), Tick(c, Run(c, EMPTY, es), now);
      && (id in z.rooms <==> id in d.rooms && !Doomed(d.rooms[id], now))
      && (id in z.rooms ==> Aged(c, d.rooms[id], z.rooms[id], now))
      && (code in z.index <==> code in d.index && d.index[code] in z.rooms)
      && (code in z.index ==> z.index[code] == d.index[code])
  {
    hide Run, Swept, Dies, Timely, Aged, Doomed, IndexAgrees, Legal;
    var d := Run(c, EMPTY, es);
    if id in d.rooms {
      TimelyLater(c, es, id, now);
      SweptAges(c, d.rooms[id], now);
    }
    IndexAgreement(c, es);
    TickIndex(c, d, code, now);
  }

  /**
   When the last event of a run was a tick, an attempt to extend succeeds if and only if it is the
   owner's, the room has not started closing, and its time left is within the threshold.
   */
  lemma {:induction false} OwnerExtendsIff(c: Config, es: seq<Event>, id: RoomId, peer: PeerId)
    requires Legal(es) && |es| > 1 && es[|es| - 1].op.TickOp? && id in Run(c, EMPTY, es).rooms
    ensures var d := Run(c, EMPTY, es); var r := d.rooms[id];
            ExtendRoom(c, d, id, peer).1.None? <==>
              Presides(r, peer) && r.state != Closing && r.expiresAt - Clock(es) <= c.extendableThreshold
  {
    var n := |es| - 1;
    var before, now := es[..n], Clock(es);
    LegalPrefix(es, n);
    RunUnfolds(c, es, n);
    assert es[..n + 1] == es;
    hide Run, Presides, Doomed, Relieved, Legal;
    TickAges(c, before, id, "", now);
    TimelyLater(c, before, id, now);
    hide Tick;
    PresentIs(Run(c, EMPTY, es).rooms[id], peer);
  }
}
