/** Who gets into a room: over any run, exactly those who are welcome and know the secret set last. */
module RoomEntry {
  import opened Basics
  import opened Rooms
  import opened RoomDirectory
  import opened RoomSteps
  import opened RoomPowers

  /** The secret that the creation of the room or its latest successful rekey has set; `None` if none is asked for. */
  function SecretSet(c: Config, es: seq<Event>, id: RoomId): Option<string>
  {
    if es == [] then None
    else
      var n := |es| - 1;
      match es[n].op
      case CreateOp(created, _, _, _, password, _, _, _) =>
        if created != id then SecretSet(c, es[..n], id) else if password.required then password.hash else None
      case RekeyOp(rekeyed, peer, secret) =>
        if rekeyed == id && RekeyRoom(Run(c, EMPTY, es[..n]), id, peer, secret).1.None? then Some(secret)
        else SecretSet(c, es[..n], id)
      case _ => SecretSet(c, es[..n], id)
  }

  function Asked(p: Password): Option<string>
  {
    if p.required then p.hash else None
  }

  lemma OthersKeepPassword(c: Config, r: Room, s: Room, e: Event)
    requires Becomes(c, r, s, e) && !e.op.RekeyOp?
    ensures s.password == r.password
  {
    hide Flagged, KeyOf, Unmuted;
    if e.op.TickOp? && s != r {
      SweptPassword(c, r, e.now);
    }
  }

  lemma SweptPassword(c: Config, r: Room, now: Timestamp)
    ensures Swept(c, r, now).0.password == r.password
  {
  }

  lemma RekeyedPassword(c: Config, d: Directory, e: Event, id: RoomId)
    requires e.op.RekeyOp? && id in d.rooms && id in Apply(c, d, e).rooms
    ensures Asked(Apply(c, d, e).rooms[id].password)
         == if e.op.id == id && RekeyRoom(d, id, e.op.peer, e.op.newSecret).1.None? then Some(e.op.newSecret)
            else Asked(d.rooms[id].password)
  {
  }

  /** A live room asks for the secret that was set last. */
  lemma {:induction false} SecretIsLastSet(c: Config, es: seq<Event>, id: RoomId)
    requires Legal(es) && id in Run(c, EMPTY, es).rooms
    ensures Asked(Run(c, EMPTY, es).rooms[id].password) == SecretSet(c, es, id)
  {
    var n := |es| - 1;
    var d := Run(c, EMPTY, es[..n]);
    LegalPrefix(es, n);
    NextIsFresh(c, es);
    hide Apply;
    RoomAfter(c, d, es[n], id);
    if id in d.rooms {
      SecretIsLastSet(c, es[..n], id);
      if es[n].op.RekeyOp? {
        RekeyedPassword(c, d, es[n], id);
      } else {
        OthersKeepPassword(c, d.rooms[id], Apply(c, d, es[n]).rooms[id], es[n]);
        assert es[n].op.CreateOp? ==> es[n].op.id != id;
      }
    }
  }

  /** The room with one more peer, who neither owns it nor is muted; the first one opens it. */
  ghost predicate LetIn(r: Room, z: Room, peer: PeerId, now: Timestamp, key: Option<RateKey>)
  {
    z == r.(peers := r.peers + [Peer(peer, false, now, key, false, None)], state := if r.state == Creating then Active else r.state)
  }

  /**
   After any run, a join is refused with the first of these that applies: no such room, a secret other
   than the one set last, a room that is closing or gone, a lock, a full house, a peer of that id. It
   succeeds when none does; then the peer stands last in the room, and in no case does anything else move.
   */
  lemma {:induction false} EntryIff(c: Config, es: seq<Event>, id: RoomId, peer: PeerId, secret: Option<string>, now: Timestamp,
                                    key: Option<RateKey>)
    requires Legal(es)
    ensures var d := Run(c, EMPTY, es);
            var (z, error) := Join(c, d, id, peer, false, secret, now, key);
            var asked := SecretSet(c, es, id);
            if id !in d.rooms then z == d && error == Some(PeerNotFound(peer))
            else
              var r := d.rooms[id];
              if asked.Some? && secret != asked then z == d && error == Some(InvalidPassword)
              else if r.state == Closing || r.state == Destroyed then z == d && error == Some(RoomTerminated)
              else if r.isLocked then z == d && error == Some(RoomLocked)
              else if |r.peers| >= c.maxParticipants then z == d && error == Some(RoomFull(c.maxParticipants))
              else if Present(r, peer) then z == d && error == Some(PeerAlreadyExists(peer))
              else
                && error.None? && z.index == d.index && z.rooms.Keys == d.rooms.Keys && LetIn(r, z.rooms[id], peer, now, key)
                && forall other :: other in d.rooms && other != id ==> z.rooms[other] == d.rooms[other]
  {
    var d := Run(c, EMPTY, es);
    if id in d.rooms {
      SecretIsLastSet(c, es, id);
      hide Run, SecretSet;
      PresentIs(d.rooms[id], peer);
    }
  }

  /** A join without the owner flag succeeds exactly for a welcome peer who offers the secret set last. */
  lemma {:induction false} WelcomeIff(c: Config, es: seq<Event>, id: RoomId, peer: PeerId, secret: Option<string>, now: Timestamp,
                                      key: Option<RateKey>)
    requires Legal(es)
    ensures var d := Run(c, EMPTY, es);
            Join(c, d, id, peer, false, secret, now, key).1.None? <==>
              && id in d.rooms && d.rooms[id].state in {Creating, Active, ExtendableWindow} && !d.rooms[id].isLocked
              && |d.rooms[id].peers| < c.maxParticipants && !Present(d.rooms[id], peer)
              && (SecretSet(c, es, id).Some? ==> secret == SecretSet(c, es, id))
  {
    hide Run, SecretSet, Join;
    EntryIff(c, es, id, peer, secret, now, key);
  }
}
