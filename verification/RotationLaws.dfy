/** What callers rely on: a code leads to a room exactly while it is the room's own. */
module RotationLaws {
  import opened Basics
  import opened CodeRotation
  import opened RotationInvariant

  function Entries(s: State, id: RoomId): set<RoomCode>
  {
    set c | c in s.index && s.index[c] == id
  }

  /** No rotation of the room is past its insertion and short of its update. */
  ghost predicate Settled(s: State, id: RoomId)
  {
    forall t :: t in s.tasks && s.tasks[t].id == id ==> !Turning(s.tasks[t].stage)
  }

  /** Thread `t` has inserted `c` for the room under the room's own lock and has yet to store it there. */
  ghost predicate Introduces(s: State, t: ThreadId, id: RoomId, c: RoomCode)
  {
    && t in s.tasks && Turning(s.tasks[t].stage) && s.tasks[t].id == id && s.tasks[t].next == c
    && id in s.locks && s.locks[id] in s.held && s.held[s.locks[id]] == t
  }

  // When a rotation overtakes a creation.

  /** The action removes the room's first code from the index before the room's creation has put it there. */
  ghost predicate Overtaking(s: State, a: Action, id: RoomId)
  {
    && a.Go? && a.t in s.tasks && s.tasks[a.t].stage.Remove? && s.tasks[a.t].id == id
    && id in s.first && s.tasks[a.t].code == s.first[id].code && id !in s.published
  }

  ghost predicate OvertakenAt(actions: seq<Action>, n: nat, id: RoomId)
    requires Legal(actions) && n < |actions|
  {
    PrefixLegal(actions, n);
    Overtaking(Run(actions[..n]), actions[n], id)
  }

  ghost predicate Overtaken(actions: seq<Action>, id: RoomId)
    requires Legal(actions)
  {
    exists n: nat :: n < |actions| && OvertakenAt(actions, n, id)
  }

  lemma {:induction false} PrefixLegal(actions: seq<Action>, n: nat)
    requires Legal(actions) && n <= |actions|
    ensures Legal(actions[..n])
  {
    if n < |actions| {
      PrefixLegal(actions[..|actions| - 1], n);
      assert actions[..|actions| - 1][..n] == actions[..n];
    } else {
      assert actions[..n] == actions;
    }
  }

  /** The room is in the map, its creation has not reached the index, and yet its first periodic rotation is due. */
  predicate Stalled(s: State, id: RoomId)
  {
    id in s.rooms && id in s.first && id !in s.published && Due(s.first[id], s.now)
  }

  /** At no moment of the run is the creation of the room stalled for an interval of the room. */
  ghost predicate Prompt(actions: seq<Action>, id: RoomId)
    requires Legal(actions)
  {
    forall n: nat :: n <= |actions| ==> PromptAt(actions, n, id)
  }

  ghost predicate PromptAt(actions: seq<Action>, n: nat, id: RoomId)
    requires Legal(actions) && n <= |actions|
  {
    PrefixLegal(actions, n);
    !Stalled(Run(actions[..n]), id)
  }

  // What each step records and leaves alone.

  predicate RotatesRoom(k: Task, id: RoomId)
  {
    k.id == id && Rotates(k.stage)
  }

  ghost predicate NobodyRotates(tasks: map<ThreadId, Task>, id: RoomId)
  {
    forall t :: t in tasks ==> !RotatesRoom(tasks[t], id)
  }

  /** Until its creation publishes it, nobody has found the room, nobody rotates it, and it is as it was inserted. */
  ghost predicate Untouched(s: State, id: RoomId)
  {
    && id !in s.overtaken
    && (id !in s.published ==>
          && id !in s.known && NobodyRotates(s.tasks, id)
          && (id in s.rooms ==> id in s.first && s.rooms[id] == s.first[id]))
  }

  /** What a step of task `k` records about the room, and that the room stays untouched. */
  ghost predicate Effect(s: State, z: State, k: Task, id: RoomId)
  {
    && (id in z.overtaken <==> id in s.overtaken || (k.stage.Remove? && k.id == id && Overtakes(s, k)))
    && (Untouched(s, id) ==> Untouched(z, id))
  }

  lemma EffectRoomInserted(s: State, t: ThreadId, k: Task, id: RoomId)
    requires At(s, t, k) && k.stage.CreateRoom?
    ensures Effect(s, RoomInserted(s, t, k), k, id)
  {
    assert CodesFine(s, k);
  }

  lemma EffectPublished(s: State, t: ThreadId, k: Task, id: RoomId)
    requires At(s, t, k) && k.stage.CreateIndex?
    ensures Effect(s, Published(s, t, k), k, id)
  {
    assert CodesFine(s, k);
  }

  lemma EffectLockMade(s: State, t: ThreadId, k: Task, made: LockId, id: RoomId)
    requires At(s, t, k) && k.stage.Entry?
    ensures Effect(s, LockMade(s, t, k, made), k, id)
  {
    assert CodesFine(s, k);
  }

  lemma EffectAcquired(s: State, t: ThreadId, k: Task, id: RoomId)
    requires At(s, t, k) && k.stage.Acquire?
    ensures Effect(s, Acquired(s, t, k), k, id)
  {
    assert CodesFine(s, k);
  }

  lemma EffectDrawn(s: State, t: ThreadId, k: Task, c: RoomCode, id: RoomId)
    requires At(s, t, k) && k.stage.Draw?
    ensures Effect(s, Drawn(s, t, k, c), k, id)
  {
    assert CodesFine(s, k);
  }

  lemma EffectCodeInserted(s: State, t: ThreadId, k: Task, id: RoomId)
    requires At(s, t, k) && k.stage.Insert?
    ensures Effect(s, CodeInserted(s, t, k), k, id)
  {
    assert CodesFine(s, k);
  }

  lemma EffectCodeRemoved(s: State, t: ThreadId, k: Task, id: RoomId)
    requires At(s, t, k) && k.stage.Remove?
    ensures Effect(s, CodeRemoved(s, t, k), k, id)
  {
    assert CodesFine(s, k);
  }

  lemma EffectRoomUpdated(s: State, t: ThreadId, k: Task, id: RoomId)
    requires At(s, t, k) && k.stage.Update? && k.id in s.rooms
    ensures Effect(s, RoomUpdated(s, t, k), k, id)
  {
    assert CodesFine(s, k);
  }

  lemma EffectReleased(s: State, t: ThreadId, k: Task, id: RoomId)
    requires At(s, t, k) && k.stage.Release?
    ensures Effect(s, Released(s, t, k), k, id)
  {
    assert CodesFine(s, k);
  }

  lemma EffectRoomDropped(s: State, t: ThreadId, k: Task, id: RoomId)
    requires At(s, t, k) && k.stage.DropRoom?
    ensures Effect(s, RoomDropped(s, t, k), k, id)
  {
    assert CodesFine(s, k);
  }

  lemma EffectCodeDropped(s: State, t: ThreadId, k: Task, id: RoomId)
    requires At(s, t, k) && k.stage.DropCode?
    ensures Effect(s, CodeDropped(s, t, k), k, id)
  {
    assert CodesFine(s, k);
  }

  lemma EffectLockDropped(s: State, t: ThreadId, k: Task, id: RoomId)
    requires At(s, t, k) && k.stage.DropLock?
    ensures Effect(s, LockDropped(s, t, k), k, id)
  {
    assert CodesFine(s, k);
  }

  lemma EffectSwept(s: State, t: ThreadId, k: Task, id: RoomId)
    requires At(s, t, k) && k.stage.DropWhenSwept? && k.id in s.rooms
    ensures Effect(s, RoomDropped(s, t, k.(code := s.rooms[k.id].code)), k, id)
  {
  }

  lemma EffectDone(s: State, t: ThreadId, k: Task, id: RoomId)
    requires At(s, t, k) && k.stage.DropWhenSwept?
    ensures Effect(s, Done(s, t), k, id)
  {
  }

  lemma EffectOnward(s: State, t: ThreadId, k: Task, draw: Option<RoomCode>, id: RoomId)
    requires At(s, t, k) && ChangesNoMap(s, k, draw)
    ensures Effect(s, Next(s, t, Onward(s, k)), k, id)
  {
  }

  lemma EffectRotation(s: State, t: ThreadId, k: Task, draw: Option<RoomCode>, made: LockId, id: RoomId)
    requires At(s, t, k) && Rotates(k.stage) && !ChangesNoMap(s, k, draw)
    ensures Effect(s, Advance(s, t, draw, made), k, id)
  {
    match k.stage
    case Entry => EffectLockMade(s, t, k, made, id);
    case Acquire => EffectAcquired(s, t, k, id);
    case Draw => EffectDrawn(s, t, k, draw.value, id);
    case Insert => EffectCodeInserted(s, t, k, id);
    case Remove => EffectCodeRemoved(s, t, k, id);
    case Update => EffectRoomUpdated(s, t, k, id);
    case Release => EffectReleased(s, t, k, id);
  }

  lemma EffectOthers(s: State, t: ThreadId, k: Task, draw: Option<RoomCode>, made: LockId, id: RoomId)
    requires At(s, t, k) && !Rotates(k.stage)
    ensures Effect(s, Advance(s, t, draw, made), k, id)
  {
    match k.stage
    case CreateRoom => EffectRoomInserted(s, t, k, id);
    case CreateIndex => EffectPublished(s, t, k, id);
    case DropRoom => EffectRoomDropped(s, t, k, id);
    case DropWhenSwept =>
      if k.id in s.rooms {
        EffectSwept(s, t, k, id);
      } else {
        EffectDone(s, t, k, id);
      }
    case DropCode => EffectCodeDropped(s, t, k, id);
    case DropLock => EffectLockDropped(s, t, k, id);
  }

  lemma EffectAdvance(s: State, t: ThreadId, k: Task, draw: Option<RoomCode>, made: LockId, id: RoomId)
    requires At(s, t, k)
    ensures Effect(s, Advance(s, t, draw, made), k, id)
  {
    if !Rotates(k.stage) {
      EffectOthers(s, t, k, draw, made, id);
    } else if ChangesNoMap(s, k, draw) {
      AdvanceIsOnward(s, t, k, draw, made);
      EffectOnward(s, t, k, draw, id);
    } else {
      EffectRotation(s, t, k, draw, made, id);
    }
  }

  lemma RetaskKeepsUntouched(s: State, t: ThreadId, k: Task, id: RoomId)
    requires Untouched(s, id) && (id in s.published || !RotatesRoom(k, id))
    ensures Untouched(Next(s, t, k), id)
  {
  }

  /** A call that begins leaves the room untouched, unless it is a periodic rotation of a stalled room. */
  lemma BeginKeepsUntouched(s: State, a: Action, id: RoomId)
    requires Core(s) && Enabled(s, a) && Untouched(s, id) && !Stalled(s, id) && (a.BeginRotate? || a.BeginDrop?)
    ensures Untouched(Next(s, a.t, BeginTask(s, a)), id)
  {
    RetaskKeepsUntouched(s, a.t, BeginTask(s, a), id);
  }

  lemma BuildKeepsUntouched(s: State, t: ThreadId, other: RoomId, room: Room, id: RoomId)
    requires Untouched(s, id)
    ensures Untouched(RoomBuilt(s, t, other, room), id)
  {
    RetaskKeepsUntouched(s.(drawnFor := s.drawnFor[room.code := other]), t, Task(CreateRoom, other, s.now, room.code, 0, "", room), id);
  }

  lemma StepKeepsUntouched(s: State, a: Action, id: RoomId)
    requires Core(s) && Enabled(s, a) && Untouched(s, id) && !Stalled(s, id)
    ensures Untouched(Step(s, a), id)
  {
    match a
    case Pass(_) =>
    case BeginCreate(t, other, room) => BuildKeepsUntouched(s, t, other, room, id);
    case BeginRotate(_, _, _) => BeginKeepsUntouched(s, a, id);
    case BeginDrop(_, _, _) => BeginKeepsUntouched(s, a, id);
    case Go(t, draw, made) => EffectAdvance(s, t, s.tasks[t], draw, made, id);
  }

  lemma StepOvertakes(s: State, a: Action, id: RoomId)
    requires Core(s) && Enabled(s, a)
    ensures id in Step(s, a).overtaken <==> id in s.overtaken || Overtaking(s, a, id)
  {
    if a.Go? {
      EffectAdvance(s, a.t, s.tasks[a.t], a.draw, a.made, id);
    }
  }

  lemma {:induction false} OvertakenEarlierOrLast(actions: seq<Action>, id: RoomId)
    requires actions != [] && Legal(actions)
    ensures var last := |actions| - 1;
            Overtaken(actions, id) <==>
              Overtaken(actions[..last], id) || Overtaking(Run(actions[..last]), actions[last], id)
  {
    var last := |actions| - 1;
    var before := actions[..last];
    assert OvertakenAt(actions, last, id) <==> Overtaking(Run(before), actions[last], id);
    forall n: nat | n < last
      ensures OvertakenAt(before, n, id) <==> OvertakenAt(actions, n, id)
    {
      assert before[..n] == actions[..n];
    }
  }

  lemma {:induction false} OvertakenIsRecorded(actions: seq<Action>, id: RoomId)
    requires Legal(actions)
    ensures id in Run(actions).overtaken <==> Overtaken(actions, id)
  {
    if actions != [] {
      var last := |actions| - 1;
      var before := actions[..last];
      OvertakenIsRecorded(before, id);
      InvAlways(before);
      StepOvertakes(Run(before), actions[last], id);
      OvertakenEarlierOrLast(actions, id);
    }
  }

  // The entries of a room.

  lemma SettledHasNoTurn(s: State, id: RoomId)
    requires Settled(s, id)
    ensures TurnOf(s, id) == NoTurn
  {
  }

  /**
   In every interleaving a live room that no rotation is turning has its own code in the index once it
   is published, and no other code but the first one, which is there just when a rotation removed it
   before the creation put it there.
   */
  lemma {:induction false} SettledEntries(actions: seq<Action>, id: RoomId)
    requires Legal(actions) && id in Run(actions).rooms && id in Run(actions).published && Settled(Run(actions), id)
    ensures var s := Run(actions);
            && id in s.first
            && (Overtaken(actions, id) ==> s.first[id].code != s.rooms[id].code)
            && Entries(s, id) == {s.rooms[id].code} + if Overtaken(actions, id) then {s.first[id].code} else {}
  {
    var s := Run(actions);
    InvAlways(actions);
    OvertakenIsRecorded(actions, id);
    SettledHasNoTurn(s, id);
    assert RoomFine(s, id);
  }

  /** So the entries of a settled room are its current code exactly when no rotation overtook its creation. */
  lemma {:induction false} OneCodeIffNotOvertaken(actions: seq<Action>, id: RoomId)
    requires Legal(actions) && id in Run(actions).rooms && id in Run(actions).published && Settled(Run(actions), id)
    ensures Entries(Run(actions), id) == {Run(actions).rooms[id].code} <==> !Overtaken(actions, id)
  {
    SettledEntries(actions, id);
    var s := Run(actions);
    if Overtaken(actions, id) {
      assert s.first[id].code in Entries(s, id);
    }
  }

  /** Every entry of the room is its current code or one that the holder of its lock has just inserted. */
  ghost predicate OnlyOwnCodes(s: State, id: RoomId)
    requires id in s.rooms
  {
    forall c :: c in Entries(s, id) ==> c == s.rooms[id].code || exists t :: Introduces(s, t, id, c)
  }

  /** Between rotations and during them, a room that was not overtaken is reached by one code, or by two while it turns. */
  lemma {:induction false} EntriesDuringRotation(actions: seq<Action>, id: RoomId)
    requires Legal(actions) && id in Run(actions).rooms && !Overtaken(actions, id)
    ensures OnlyOwnCodes(Run(actions), id)
    ensures id in Run(actions).published ==> 1 <= |Entries(Run(actions), id)| <= 2
    ensures id !in Run(actions).published && Settled(Run(actions), id) ==> Entries(Run(actions), id) == {}
  {
    var s := Run(actions);
    InvAlways(actions);
    OvertakenIsRecorded(actions, id);
    assert RoomFine(s, id);
    EntriesOfTurn(s, id);
    if Settled(s, id) {
      SettledHasNoTurn(s, id);
    }
  }

  lemma EntriesOfTurn(s: State, id: RoomId)
    requires Core(s) && id in s.rooms && id !in s.overtaken && RoomFine(s, id)
    ensures OnlyOwnCodes(s, id)
    ensures id in s.published ==> 1 <= |Entries(s, id)| <= 2
  {
    TurnStartsFromCurrent(s, id);
    match TurnOf(s, id)
    case NoTurn =>
      assert id in s.published ==> Entries(s, id) == {s.rooms[id].code};
    case Both(previous, next) =>
      assert Introduces(s, s.held[s.locks[id]], id, next);
      assert id in s.published ==> Entries(s, id) == {previous, next};
    case Only(next) =>
      assert Introduces(s, s.held[s.locks[id]], id, next);
      assert id in s.published ==> Entries(s, id) == {next};
  }

  /** Two threads never both hold the lock of a live room: its rotations take turns. */
  lemma {:induction false} RotationsTakeTurns(actions: seq<Action>, t: ThreadId, u: ThreadId)
    requires Legal(actions)
    requires var s := Run(actions);
             && t in s.tasks && u in s.tasks && Holds(s.tasks[t].stage) && Holds(s.tasks[u].stage)
             && s.tasks[t].id == s.tasks[u].id && s.tasks[t].id in s.rooms
    ensures t == u
  {
    InvAlways(actions);
    var s := Run(actions);
    assert LockFine(s, t, s.tasks[t]) && LockFine(s, u, s.tasks[u]);
  }

  // Creations that publish in time are not overtaken.

  lemma {:induction false} UntouchedAlways(actions: seq<Action>, id: RoomId)
    requires Legal(actions) && Prompt(actions, id)
    ensures Untouched(Run(actions), id)
  {
    if actions != [] {
      var last := |actions| - 1;
      var before := actions[..last];
      forall n: nat | n <= last
        ensures PromptAt(before, n, id)
      {
        assert before[..n] == actions[..n] && PromptAt(actions, n, id);
      }
      UntouchedAlways(before, id);
      InvAlways(before);
      assert PromptAt(before, last, id) && before[..last] == before;
      StepKeepsUntouched(Run(before), actions[last], id);
    }
  }

  /**
   A creation that reaches the index before its room's first periodic rotation falls due is never
   overtaken, so the guarantee holds in every run whose creations all do.
   */
  lemma {:induction false} PromptCreationIsSafe(actions: seq<Action>, id: RoomId)
    requires Legal(actions) && Prompt(actions, id)
    ensures !Overtaken(actions, id)
    ensures id in Run(actions).rooms ==> OnlyOwnCodes(Run(actions), id)
    ensures id in Run(actions).rooms && id in Run(actions).published && Settled(Run(actions), id) ==>
              Entries(Run(actions), id) == {Run(actions).rooms[id].code}
  {
    UntouchedAlways(actions, id);
    OvertakenIsRecorded(actions, id);
    if id in Run(actions).rooms {
      EntriesDuringRotation(actions, id);
      if id in Run(actions).published && Settled(Run(actions), id) {
        OneCodeIffNotOvertaken(actions, id);
      }
    }
  }

  // The condition can fail: room 0 may rotate every second, and its creation takes longer than that.

  const FIRST := Room("A", true, Some(1), true, 0)
  const LATER := Room("B", true, Some(1), true, SECOND)
  const CREATION := Task(CreateIndex, 0, 0, "A", 0, "", FIRST)

  function Rotation(stage: Stage, code: RoomCode, next: RoomCode): Task
  {
    Task(stage, 0, SECOND, code, 5, next, NO_ROOM)
  }

  ghost predicate Reaches(actions: seq<Action>, s: State)
  {
    Legal(actions) && Run(actions) == s
  }

  lemma {:induction false} Extend(actions: seq<Action>, s: State, a: Action, z: State) returns (more: seq<Action>)
    requires Reaches(actions, s) && Enabled(s, a) && Step(s, a) == z
    ensures Reaches(more, z)
  {
    more := actions + [a];
    assert more[..|actions|] == actions;
  }

  /** Room 0 is in the map, and its interval is over before it is in the index. */
  const LATE := State(map[0 := FIRST], map[], map[], map[], map[0 := CREATION], SECOND,
                      map["A" := 0], map[], map[0 := FIRST], {}, {}, {})

  lemma CreationStalls() returns (actions: seq<Action>)
    ensures Reaches(actions, LATE)
  {
    var built := START.(drawnFor := map["A" := 0], tasks := map[0 := CREATION.(stage := CreateRoom)]);
    actions := Extend([], START, BeginCreate(0, 0, FIRST), built);
    actions := Extend(actions, built, Go(0, None, 0), LATE.(now := 0));
    actions := Extend(actions, LATE.(now := 0), Pass(SECOND), LATE);
  }

  /** The sweep has taken the room, and its rotation holds the lock. */
  function Locked(k: Task): State
  {
    State(map[0 := FIRST], map[], map[0 := 5], map[5 := 1], map[0 := CREATION, 1 := k], SECOND,
          map["A" := 0], map[5 := 0], map[0 := FIRST], {}, {}, {})
  }

  lemma SweepTakesTheRoom() returns (actions: seq<Action>)
    ensures Reaches(actions, LATE.(tasks := map[0 := CREATION, 1 := Begun(Entry, 0, SECOND, "")]))
  {
    actions := CreationStalls();
    actions := Extend(actions, LATE, BeginRotate(1, 0, true), LATE.(tasks := map[0 := CREATION, 1 := Begun(Entry, 0, SECOND, "")]));
  }

  lemma RotationLocks() returns (actions: seq<Action>)
    ensures Reaches(actions, Locked(Rotation(Read, "", "")))
  {
    actions := SweepTakesTheRoom();
    var swept := LATE.(tasks := map[0 := CREATION, 1 := Begun(Entry, 0, SECOND, "")]);
    var locking := LATE.(locks := map[0 := 5], madeFor := map[5 := 0], tasks := map[0 := CREATION, 1 := Rotation(Acquire, "", "")]);
    actions := Extend(actions, swept, Go(1, None, 5), locking);
    actions := Extend(actions, locking, Go(1, None, 0), Locked(Rotation(Read, "", "")));
  }

  lemma RotationDraws() returns (actions: seq<Action>)
    ensures Reaches(actions, Locked(Rotation(Insert, "A", "B")).(drawnFor := map["A" := 0, "B" := 0]))
  {
    actions := RotationLocks();
    actions := Extend(actions, Locked(Rotation(Read, "", "")), Go(1, None, 0), Locked(Rotation(Draw, "A", "")));
    actions := Extend(actions, Locked(Rotation(Draw, "A", "")), Go(1, Some("B"), 0),
                      Locked(Rotation(Insert, "A", "B")).(drawnFor := map["A" := 0, "B" := 0]));
  }

  /** The rotation has put its code into the index. */
  function Inserted(room: Room, k: Task, overtaken: set<RoomId>): State
  {
    State(map[0 := room], map["B" := 0], map[0 := 5], map[5 := 1], map[0 := CREATION, 1 := k], SECOND,
          map["A" := 0, "B" := 0], map[5 := 0], map[0 := FIRST], {0}, {}, overtaken)
  }

  lemma RotationInserts() returns (actions: seq<Action>)
    ensures Reaches(actions, Inserted(FIRST, Rotation(Remove, "A", "B"), {}))
  {
    actions := RotationDraws();
    actions := Extend(actions, Locked(Rotation(Insert, "A", "B")).(drawnFor := map["A" := 0, "B" := 0]), Go(1, None, 0),
                      Inserted(FIRST, Rotation(Remove, "A", "B"), {}));
  }

  lemma RotationRemoves() returns (actions: seq<Action>)
    ensures Reaches(actions, Inserted(FIRST, Rotation(Update, "A", "B"), {0}))
  {
    actions := RotationInserts();
    var s := Inserted(FIRST, Rotation(Remove, "A", "B"), {});
    assert s.index - {"A"} == s.index;
    actions := Extend(actions, s, Go(1, None, 0), Inserted(FIRST, Rotation(Update, "A", "B"), {0}));
  }

  lemma RotationUpdates() returns (actions: seq<Action>)
    ensures Reaches(actions, Inserted(LATER, Rotation(Release, "A", "B"), {0}))
  {
    actions := RotationRemoves();
    actions := Extend(actions, Inserted(FIRST, Rotation(Update, "A", "B"), {0}), Go(1, None, 0),
                      Inserted(LATER, Rotation(Release, "A", "B"), {0}));
  }

  /** The creation of room 0 comes to its end after a rotation has left the code it publishes. */
  const STALE := State(map[0 := LATER], map["B" := 0, "A" := 0], map[0 := 5], map[5 := 1], map[1 := Rotation(Release, "A", "B")], SECOND,
                       map["A" := 0, "B" := 0], map[5 := 0], map[0 := FIRST], {0}, {0}, {0})

  lemma PublicationSteps(s: State, t: ThreadId, k: Task)
    requires t in s.tasks && s.tasks[t] == k && k.stage.CreateIndex?
    ensures Enabled(s, Go(t, None, 0)) && Step(s, Go(t, None, 0)) == Published(s, t, k)
  {
  }

  lemma LastIsStale()
    ensures Published(Inserted(LATER, Rotation(Release, "A", "B"), {0}), 0, CREATION) == STALE
  {
    var s := Inserted(LATER, Rotation(Release, "A", "B"), {0});
    hide Rotation;
    assert s.tasks - {0} == STALE.tasks;
  }

  lemma CreationEnds() returns (actions: seq<Action>)
    ensures Reaches(actions, STALE)
  {
    hide Step, Enabled, Published, Rotation, Reaches;
    actions := RotationUpdates();
    PublicationSteps(Inserted(LATER, Rotation(Release, "A", "B"), {0}), 0, CREATION);
    LastIsStale();
    actions := Extend(actions, Inserted(LATER, Rotation(Release, "A", "B"), {0}), Go(0, None, 0), STALE);
  }

  /** A creation stalled for an interval of its room can leave the room with a code that is not its own, for good. */
  lemma StalledCreationLeavesStaleCode() returns (actions: seq<Action>)
    ensures Legal(actions) && 0 in Run(actions).rooms && 0 in Run(actions).published && Settled(Run(actions), 0)
    ensures Overtaken(actions, 0) && Entries(Run(actions), 0) == {"A", "B"} && Run(actions).rooms[0].code == "B"
  {
    actions := CreationEnds();
    OvertakenIsRecorded(actions, 0);
    assert STALE.index["A"] == 0;
  }
}
