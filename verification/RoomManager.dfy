/** The room manager: shared maps of mutable rooms, each operation proved against `RoomDirectory`. */
module RoomManagement {
  import opened Basics
  import opened Rooms
  import opened RoomDirectory

  class RoomManager {
    const config: Config
    var rooms: map<RoomId, RoomState>
    var codeToId: map<RoomCode, RoomId>

    /** Distinct ids name distinct room objects. */
    ghost predicate Valid()
      reads this
    {
      forall i, j :: i in rooms && j in rooms && i != j ==> rooms[i] != rooms[j]
    }

    ghost function View(): Directory
      reads this, rooms.Values
    {
      Directory(map id | id in rooms :: rooms[id].Value(), codeToId)
    }

    /** When only the room with one id changed, the view changes at that id only. */
    twostate lemma OneRoomChanged(id: RoomId)
      requires rooms == old(rooms) && codeToId == old(codeToId) && id in rooms
      requires forall other :: other in rooms && other != id ==> rooms[other].Value() == old(rooms[other].Value())
      ensures View() == Put(old(View()), id, rooms[id].Value())
    {
      assert View().rooms == old(View()).rooms[id := rooms[id].Value()];
    }

    /** The same when the index changed too. */
    twostate lemma OneRoomInView(id: RoomId)
      requires rooms == old(rooms) && id in rooms
      requires forall other :: other in rooms && other != id ==> rooms[other].Value() == old(rooms[other].Value())
      ensures View() == Directory(old(View()).rooms[id := rooms[id].Value()], codeToId)
    {
      assert View().rooms == old(View()).rooms[id := rooms[id].Value()];
    }

    /** When no room changed, neither did the view. */
    twostate lemma NoRoomChanged()
      requires rooms == old(rooms) && codeToId == old(codeToId)
      requires forall id :: id in rooms ==> rooms[id].Value() == old(rooms[id].Value())
      ensures View() == old(View())
    {
      assert View().rooms == old(View()).rooms;
    }

    constructor (config: Config)
      ensures Valid() && this.config == config && View() == EMPTY
    {
      this.config := config;
      rooms, codeToId := map[], map[];
    }

    method GenerateUnique(draws: seq<RoomCode>) returns (code: Option<RoomCode>)
      ensures code == FirstUnused(codeToId, Attempts(draws))
    {
      var candidates := Attempts(draws);
      for i := 0 to |candidates|
        invariant FirstUnused(codeToId, candidates) == FirstUnused(codeToId, candidates[i..])
      {
        if candidates[i] !in codeToId {
          return Some(candidates[i]);
        }
      }
      return None;
    }

    method CreateRoomWithOptions(id: RoomId, draws: seq<RoomCode>, owner: Option<PeerId>, key: Option<RateKey>,
                                 password: Password, hopping: bool, autoRotate: Option<nat>, now: Timestamp, at: Time)
      returns (code: Option<RoomCode>)
      requires Valid()
      modifies this
      ensures Valid()
      ensures (View(), code)
           == Create(config, old(View()), id, draws, owner, key, password, hopping, autoRotate, now, at)
    {
      code := GenerateUnique(draws);
      if code.None? {
        return;
      }
      var room := new RoomState.WithHopping(config, id, code.value, owner, key, password, now, hopping, autoRotate, at);
      Insert(id, code.value, room);
    }

    method Insert(id: RoomId, code: RoomCode, room: RoomState)
      requires Valid() && room !in rooms.Values
      modifies this
      ensures Valid()
      ensures View() == Directory(old(View()).rooms[id := room.Value()], old(codeToId)[code := id])
    {
      rooms := rooms[id := room];
      codeToId := codeToId[code := id];
      assert View().rooms == old(View()).rooms[id := room.Value()];
    }

    method RotateRoomCodeAt(id: RoomId, draws: seq<RoomCode>, at: Time) returns (result: Result<RoomCode, RoomError>)
      requires Valid()
      modifies this`codeToId, rooms.Values
      ensures Valid()
      ensures (View(), result) == Rotate(old(View()), id, draws, at)
    {
      if id !in rooms {
        return Failure(PeerNotFound(""));
      }
      var oldCode := rooms[id].code;
      if !rooms[id].hopping {
        return Success(oldCode);
      }
      var code := GenerateUnique(draws);
      if code.None? {
        return Failure(RoomTerminated);
      }
      codeToId := codeToId[code.value := id];
      codeToId := codeToId - {oldCode};
      rooms[id].RecordRotation(code.value, at);
      OneRoomInView(id);
      return Success(code.value);
    }

    method JoinRoomWithPassword(id: RoomId, peer: PeerId, isOwner: bool, password: Option<string>, now: Timestamp,
                                key: Option<RateKey>) returns (error: Option<RoomError>)
      requires Valid()
      modifies rooms.Values
      ensures Valid()
      ensures (View(), error) == Join(config, old(View()), id, peer, isOwner, password, now, key)
    {
      if id !in rooms {
        return Some(PeerNotFound(peer));
      }
      error := rooms[id].AddPeerWithPassword(config, peer, isOwner, password, now, key);
      if error.None? {
        OneRoomChanged(id);
      } else {
        NoRoomChanged();
      }
    }

    method LeaveRoom(id: RoomId, peer: PeerId) returns (outcome: Option<LeaveOutcome>)
      requires Valid()
      modifies this, rooms.Values
      ensures Valid()
      ensures (View(), outcome) == Leave(old(View()), id, peer)
    {
      if id !in rooms {
        return None;
      }
      var room := rooms[id];
      var removed := room.RemovePeer(peer);
      if removed.None? {
        NoRoomChanged();
        return None;
      }
      var wasOwner := removed.value.isOwner;
      var code := room.code;
      if |room.peers| == 0 {
        OneRoomChanged(id);
        RemoveRoom(id, code);
        DropPut(old(View()), id, room.Value(), code);
        return Some(LeaveOutcome(wasOwner, None, true, code));
      }
      if !wasOwner {
        OneRoomChanged(id);
        return Some(LeaveOutcome(false, None, false, code));
      }
      var heir := Inherit(room);
      OneRoomChanged(id);
      return Some(LeaveOutcome(true, Some(heir), false, code));
    }

    method RemoveRoom(id: RoomId, code: RoomCode)
      requires Valid()
      modifies this
      ensures Valid() && View() == Drop(old(View()), id, code)
    {
      rooms := rooms - {id};
      codeToId := codeToId - {code};
      assert View().rooms == old(View()).rooms - {id};
    }

    /** The first of the peers in the room becomes its owner. */
    method Inherit(room: RoomState) returns (heir: PeerId)
      requires room.peers != []
      modifies room
      ensures heir == old(room.peers)[0].id && room.Value() == WithOwner(old(room.Value()), heir)
    {
      heir := room.peers[0].id;
      var found := room.SetOwner(heir);
    }

    method KickPeer(id: RoomId, operator: PeerId, target: PeerId) returns (result: Result<Option<RateKey>, RoomError>)
      requires Valid()
      modifies rooms.Values
      ensures Valid()
      ensures (View(), result) == Kick(old(View()), id, operator, target)
    {
      if id !in rooms {
        return Failure(PeerNotFound(target));
      }
      if !rooms[id].Value().HasPermission(operator) {
        return Failure(Unauthorized);
      }
      if operator == target {
        return Failure(Unauthorized);
      }
      var removed := rooms[id].RemovePeer(target);
      if removed.None? {
        NoRoomChanged();
        return Failure(PeerNotFound(target));
      }
      OneRoomChanged(id);
      return Success(removed.value.rateKey);
    }

    method TransferOwnership(id: RoomId, operator: PeerId, heir: PeerId) returns (result: Result<RoomCode, RoomError>)
      requires Valid()
      modifies rooms.Values
      ensures Valid()
      ensures (View(), result) == Transfer(old(View()), id, operator, heir)
    {
      if id !in rooms {
        return Failure(PeerNotFound(heir));
      }
      if !rooms[id].Value().HasPermission(operator) || operator == heir {
        return Failure(Unauthorized);
      }
      if !rooms[id].Value().HasPeer(heir) {
        return Failure(PeerNotFound(heir));
      }
      var found := rooms[id].SetOwner(heir);
      OneRoomChanged(id);
      if !found {
        return Failure(PeerNotFound(heir));
      }
      return Success(rooms[id].code);
    }

    method DetonateRoom(id: RoomId, operator: PeerId) returns (error: Option<RoomError>)
      requires Valid()
      modifies this
      ensures Valid()
      ensures (View(), error) == Detonate(old(View()), id, operator)
    {
      if id !in rooms {
        return Some(PeerNotFound(operator));
      }
      if !rooms[id].Value().HasPermission(operator) {
        return Some(Unauthorized);
      }
      var code := rooms[id].code;
      RemoveRoom(id, code);
      return None;
    }

    method ExtendRoom(id: RoomId, peer: PeerId) returns (error: Option<RoomError>)
      requires Valid()
      modifies rooms.Values
      ensures Valid()
      ensures (View(), error) == RoomDirectory.ExtendRoom(config, old(View()), id, peer)
    {
      if id !in rooms {
        return Some(PeerNotFound(peer));
      }
      error := rooms[id].ExtendByOwner(config, peer);
      if error.None? {
        OneRoomChanged(id);
      } else {
        NoRoomChanged();
      }
    }

    method CloseRoom(id: RoomId, peer: PeerId, now: Timestamp) returns (error: Option<RoomError>)
      requires Valid()
      modifies rooms.Values
      ensures Valid()
      ensures (View(), error) == RoomDirectory.CloseRoom(config, old(View()), id, peer, now)
    {
      if id !in rooms {
        return Some(PeerNotFound(peer));
      }
      error := rooms[id].CloseByOwner(config, peer, now);
      if error.None? {
        OneRoomChanged(id);
      } else {
        NoRoomChanged();
      }
    }

    method RekeyRoom(id: RoomId, peer: PeerId, password: string) returns (error: Option<RoomError>)
      requires Valid()
      modifies rooms.Values
      ensures Valid()
      ensures (View(), error) == RoomDirectory.RekeyRoom(old(View()), id, peer, password)
    {
      if id !in rooms {
        return Some(PeerNotFound(peer));
      }
      error := rooms[id].RekeyByOwner(peer, password);
      if error.None? {
        OneRoomChanged(id);
      } else {
        NoRoomChanged();
      }
    }

    method SetRoomLocked(id: RoomId, operator: PeerId, locked: bool) returns (error: Option<RoomError>)
      requires Valid()
      modifies rooms.Values
      ensures Valid()
      ensures (View(), error) == LockRoom(old(View()), id, operator, locked)
    {
      if id !in rooms {
        return Some(PeerNotFound(operator));
      }
      if !rooms[id].Value().HasPermission(operator) {
        return Some(Unauthorized);
      }
      rooms[id].SetLocked(locked);
      OneRoomChanged(id);
      return None;
    }

    method ModeratePeer(id: RoomId, operator: PeerId, target: PeerId, m: Moderation) returns (error: Option<RoomError>)
      requires Valid()
      modifies rooms.Values
      ensures Valid()
      ensures (View(), error) == Moderate(old(View()), id, operator, target, m)
    {
      if id !in rooms {
        return Some(PeerNotFound(if m.Mute? || m.Unmute? then target else operator));
      }
      if !rooms[id].Value().HasPermission(operator) {
        return Some(Unauthorized);
      }
      match m {
        case BlockChat(blocked) => error := rooms[id].SetChatVisibilityBlocked(target, blocked);
        case BlockFiles(blocked) => error := rooms[id].SetFileVisibilityBlocked(target, blocked);
        case Mute(until) => error := rooms[id].SetMuted(target, true, until);
        case Unmute => error := rooms[id].SetMuted(target, false, None);
      }
      if error.None? {
        OneRoomChanged(id);
      } else {
        NoRoomChanged();
      }
    }

    /** One room of pass 1: its lifecycle is evaluated and its expired mutes are lifted. */
    method EvaluateOne(id: RoomId, now: Timestamp) returns (action: LifecycleAction)
      requires Valid() && id in rooms
      modifies rooms.Values
      ensures View() == Put(old(View()), id, Swept(config, old(View()).rooms[id], now).0)
      ensures action == Swept(config, old(View()).rooms[id], now).1
    {
      action := rooms[id].EvaluateLifecycle(config, now);
      var unmuted := rooms[id].CheckExpiredMutes(now);
      OneRoomChanged(id);
    }

    /** Pass 1: every room is evaluated, in any order, and its action noted. */
    method EvaluateAll(now: Timestamp) returns (actions: map<RoomId, LifecycleAction>)
      requires Valid()
      modifies rooms.Values
      ensures IsSweep(config, old(View()), View(), {}, actions, now)
    {
      actions := map[];
      var todo := rooms.Keys;
      ghost var was, current := View(), View();
      while todo != {}
        invariant View() == current
        invariant IsSweep(config, was, current, todo, actions, now)
      {
        var id :| id in todo;
        var action := EvaluateOne(id, now);
        SweepStep(config, was, current, todo, actions, now, id);
        current := View();
        actions := actions[id := action];
        todo := todo - {id};
      }
    }

    /** Pass 2: every room whose action says so is removed, together with its current code. */
    method Purge(actions: map<RoomId, LifecycleAction>)
      requires actions.Keys == rooms.Keys
      modifies this
      ensures rooms == map id | id in old(rooms) && !actions[id].Destroy? :: old(rooms)[id]
      ensures codeToId == old(codeToId) - (set id | id in old(rooms) && actions[id].Destroy? :: old(rooms[id].code))
    {
      ghost var before := rooms;
      ghost var index := codeToId;
      var todo := actions.Keys;
      while todo != {}
        invariant todo <= before.Keys
        invariant rooms.Keys == set id | id in before && (id in todo || !actions[id].Destroy?)
        invariant forall id :: id in rooms ==> rooms[id] == before[id]
        invariant codeToId == index - (set id | id in before && id !in todo && actions[id].Destroy? :: before[id].code)
      {
        var id :| id in todo;
        if actions[id].Destroy? {
          var code := rooms[id].code;
          rooms := rooms - {id};
          codeToId := codeToId - {code};
        }
        todo := todo - {id};
      }
    }

    twostate lemma PurgedView(actions: map<RoomId, LifecycleAction>)
      requires actions.Keys == old(rooms).Keys
      requires rooms == map id | id in old(rooms) && !actions[id].Destroy? :: old(rooms)[id]
      requires codeToId == old(codeToId) - (set id | id in old(rooms) && actions[id].Destroy? :: old(rooms[id].code))
      requires forall id :: id in rooms ==> rooms[id].Value() == old(rooms[id].Value())
      ensures View() == Purged(old(View()), actions)
    {
      var purged := Purged(old(View()), actions);
      assert View().rooms == purged.rooms;
      assert (set id | id in old(rooms) && actions[id].Destroy? :: old(rooms[id].code))
          == (set id | id in old(View()).rooms && actions[id].Destroy? :: old(View()).rooms[id].code);
    }

    method TickLifecycle(now: Timestamp) returns (actions: map<RoomId, LifecycleAction>)
      requires Valid()
      modifies this, rooms.Values
      ensures Valid()
      ensures View() == Tick(config, old(View()), now)
      ensures actions.Keys == old(View()).rooms.Keys
      ensures forall id :: id in actions ==> actions[id] == Swept(config, old(View()).rooms[id], now).1
    {
      hide Tick, Purged, Swept;
      ghost var was := View();
      actions := EvaluateAll(now);
      ghost var evaluated := View();
      label swept:
      Purge(actions);
      PurgedView@swept(actions);
      assert View() == Purged(evaluated, actions);
      SweepThenPurge(config, was, evaluated, actions, now);
    }

    method CountActiveRoomsByOwner(key: RateKey, now: Timestamp) returns (count: nat)
      requires Valid()
      ensures count == |ActiveByOwnerKey(View(), key, now)|
    {
      count := 0;
      var todo := rooms.Keys;
      ghost var rest := ActiveByOwnerKey(View(), key, now);
      while todo != {}
        invariant todo <= rooms.Keys
        invariant count + |rest| == |ActiveByOwnerKey(View(), key, now)|
        invariant rest == set id | id in ActiveByOwnerKey(View(), key, now) && id in todo
      {
        var id :| id in todo;
        if rooms[id].ownerRateKey == Some(key) && rooms[id].Value().IsActive(now) {
          assert id in rest;
          count := count + 1;
        } else {
          assert id !in rest;
        }
        rest := rest - {id};
        todo := todo - {id};
      }
    }
  }
}
