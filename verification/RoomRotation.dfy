/** What a rotation does to the rooms and to the index, field by field, and what a join makes of it. */
module RoomRotation {
  import opened Basics
  import opened Rooms
  import opened RoomDirectory
  import opened RoomSteps
  import opened RoomIndex

  /** `draws[i]` is the first of the drawn codes, a thousand of them at most, that leads nowhere yet. */
  ghost predicate IsFresh(index: map<RoomCode, RoomId>, draws: seq<RoomCode>, i: nat)
  {
    i < |draws| && i < 1000 && draws[i] !in index && forall j :: 0 <= j < i ==> draws[j] in index
  }

  ghost predicate Exhausted(index: map<RoomCode, RoomId>, draws: seq<RoomCode>)
  {
    forall i :: 0 <= i < |draws| && i < 1000 ==> draws[i] in index
  }

  lemma {:induction false} FirstUnusedIs(index: map<RoomCode, RoomId>, draws: seq<RoomCode>, i: nat)
    requires i < |draws| && draws[i] !in index && forall j :: 0 <= j < i ==> draws[j] in index
    ensures FirstUnused(index, draws) == Some(draws[i])
  {
    if i > 0 {
      FirstUnusedIs(index, draws[1..], i - 1);
    }
  }

  lemma {:induction false} NoneUnused(index: map<RoomCode, RoomId>, draws: seq<RoomCode>)
    requires forall i :: 0 <= i < |draws| ==> draws[i] in index
    ensures FirstUnused(index, draws).None?
  {
    if draws != [] {
      NoneUnused(index, draws[1..]);
    }
  }

  /** The generator finds the first fresh draw, and gives up exactly when a thousand draws were all in use. */
  lemma {:induction false} GeneratorIs(index: map<RoomCode, RoomId>, draws: seq<RoomCode>, i: nat)
    ensures IsFresh(index, draws, i) ==> FirstUnused(index, Attempts(draws)) == Some(draws[i])
    ensures Exhausted(index, draws) ==> FirstUnused(index, Attempts(draws)).None?
  {
    if IsFresh(index, draws, i) {
      FirstUnusedIs(index, Attempts(draws), i);
    }
    if Exhausted(index, draws) {
      NoneUnused(index, Attempts(draws));
    }
  }

  lemma {:induction false} FreshOrExhausted(index: map<RoomCode, RoomId>, draws: seq<RoomCode>, n: nat) returns (i: nat)
    requires forall j :: 0 <= j < n && j < |draws| && j < 1000 ==> draws[j] in index
    ensures IsFresh(index, draws, i) || Exhausted(index, draws)
    decreases 1000 - n
  {
    i := n;
    if n < |draws| && n < 1000 && draws[n] in index {
      i := FreshOrExhausted(index, draws, n + 1);
    }
  }

  /** The room moves to `code`, and the index with it; nothing else moves. */
  ghost predicate MovedTo(d: Directory, z: Directory, id: RoomId, code: RoomCode, at: Time)
    requires id in d.rooms
  {
    var was := d.rooms[id].code;
    && code !in d.index
    && z.rooms.Keys == d.rooms.Keys
    && z.rooms[id] == d.rooms[id].(code := code, lastRotation := at)
    && (forall other :: other in d.rooms && other != id ==> z.rooms[other] == d.rooms[other])
    && code in z.index && z.index[code] == id && was !in z.index
    && (forall c :: c != code && c != was ==> (c in z.index <==> c in d.index))
    && (forall c :: c in d.index && c != was ==> c in z.index && z.index[c] == d.index[c])
  }

  /**
   A rotation of a live hopping room moves it to the first fresh code of a thousand draws. With no such
   draw it fails, a room that does not hop keeps its code, a room that is not there is not found, and in
   these three cases nothing moves.
   */
  lemma RotationRotates(d: Directory, id: RoomId, draws: seq<RoomCode>, at: Time)
    requires id in d.rooms && d.rooms[id].hopping ==> d.rooms[id].code in d.index
    ensures var (z, result) := Rotate(d, id, draws, at);
            if id !in d.rooms then z == d && result == Failure(PeerNotFound(""))
            else if !d.rooms[id].hopping then z == d && result == Success(d.rooms[id].code)
            else if Exhausted(d.index, draws) then z == d && result == Failure(RoomTerminated)
            else exists i: nat :: IsFresh(d.index, draws, i) && result == Success(draws[i]) && MovedTo(d, z, id, draws[i], at)
  {
    var i := FreshOrExhausted(d.index, draws, 0);
    GeneratorIs(d.index, draws, i);
    if IsFresh(d.index, draws, i) && id in d.rooms && d.rooms[id].hopping {
      assert MovedTo(d, Rotate(d, id, draws, at).0, id, draws[i], at);
    }
  }

  /** The same of a room that any run has led to. */
  lemma {:induction false} RunRotates(c: Config, es: seq<Event>, id: RoomId, draws: seq<RoomCode>, at: Time)
    requires Legal(es)
    ensures var d := Run(c, EMPTY, es);
            var (z, result) := Rotate(d, id, draws, at);
            id in d.rooms && d.rooms[id].hopping && !Exhausted(d.index, draws) ==>
              && d.rooms[id].code in d.index && d.index[d.rooms[id].code] == id
              && exists i: nat :: IsFresh(d.index, draws, i) && result == Success(draws[i]) && MovedTo(d, z, id, draws[i], at)
  {
    IndexAgreement(c, es);
    var d := Run(c, EMPTY, es);
    if id in d.rooms {
      assert d.rooms[id].code in d.index;
    }
    RotationRotates(d, id, draws, at);
  }

  /** Open, empty but for its owner, and expiring after the initial duration. */
  ghost predicate IsNewborn(c: Config, r: Room, code: RoomCode, owner: Option<PeerId>, key: Option<RateKey>, password: Password,
                            hopping: bool, autoRotate: Option<nat>, now: Timestamp, at: Time)
  {
    && r.code == code && r.state.Creating? && r.createdAt == now && r.expiresAt == now + c.initialDuration
    && r.closingDeadline.None? && r.extensionCount == 0 && r.password == password && r.ownerRateKey == key
    && !r.isLocked && r.hopping == hopping && r.autoRotate == autoRotate && r.lastRotation == at
    && r.chatBlocked == r.fileBlocked == {}
    && r.peers == match owner
                  case None => []
                  case Some(peer) => [Peer(peer, true, now, key, false, None)]
  }

  /** A creation makes the room under the first fresh draw, or makes nothing. */
  lemma CreationCreates(c: Config, d: Directory, id: RoomId, draws: seq<RoomCode>, owner: Option<PeerId>, key: Option<RateKey>,
                        password: Password, hopping: bool, autoRotate: Option<nat>, now: Timestamp, at: Time)
    ensures var (z, code) := Create(c, d, id, draws, owner, key, password, hopping, autoRotate, now, at);
            if Exhausted(d.index, draws) then z == d && code.None?
            else
              && (exists i: nat :: IsFresh(d.index, draws, i) && code == Some(draws[i]))
              && z.index == d.index[code.value := id] && z.rooms.Keys == d.rooms.Keys + {id}
              && (forall other :: other in d.rooms && other != id ==> z.rooms[other] == d.rooms[other])
              && IsNewborn(c, z.rooms[id], code.value, owner, key, password, hopping, autoRotate, now, at)
  {
    var i := FreshOrExhausted(d.index, draws, 0);
    GeneratorIs(d.index, draws, i);
  }
}
