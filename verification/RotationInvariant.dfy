/** What every step of interleaved creations, rotations and removals keeps. */
module RotationInvariant {
  import opened Basics
  import opened CodeRotation

  type Draws = map<RoomCode, RoomId>

  predicate DrawnFor(drawn: Draws, c: RoomCode, id: RoomId)
  {
    c in drawn && drawn[c] == id
  }

  // The invariant: facts about codes and about locks, in the maps and in each call in progress, and
  // about what the index holds for each live room.

  /** Codes in use were drawn for the room they are used for, and rooms are inserted before anything else happens to them. */
  ghost predicate MapCodes(s: State)
  {
    && (forall c :: c in s.index ==> DrawnFor(s.drawnFor, c, s.index[c]) && s.index[c] in s.first)
    && (forall id :: id in s.rooms ==> DrawnFor(s.drawnFor, s.rooms[id].code, id) && id in s.first)
    && (forall id :: id in s.first ==> DrawnFor(s.drawnFor, s.first[id].code, id))
    && s.known <= s.first.Keys && s.published <= s.known && s.overtaken <= s.first.Keys
  }

  ghost predicate TaskCodes(drawn: Draws, first: map<RoomId, Room>, published: set<RoomId>, rooms: map<RoomId, Room>, k: Task)
  {
    && (Creates(k.stage) || KnowsPrevious(k.stage) || k.stage.DropRoom? || k.stage.DropCode? ==> DrawnFor(drawn, k.code, k.id))
    && (KnowsNext(k.stage) ==> DrawnFor(drawn, k.next, k.id) && k.next != k.code && k.id in first && k.next != first[k.id].code)
    && (Creates(k.stage) ==> k.room.code == k.code && k.id !in published)
    && (k.stage.CreateRoom? ==> k.id !in first)
    && (k.stage.CreateIndex? ==> k.id in first && k.code == first[k.id].code)
    && (Rotates(k.stage) || Drops(k.stage) ==> k.id in first)
    && (KnowsPrevious(k.stage) && k.id in rooms ==> rooms[k.id].code == k.code)
    && (k.stage.DropCode? || k.stage.DropLock? ==> k.id !in rooms)
  }

  ghost predicate AllTaskCodes(drawn: Draws, first: map<RoomId, Room>, published: set<RoomId>, rooms: map<RoomId, Room>,
                               tasks: map<ThreadId, Task>)
  {
    forall t :: t in tasks ==> TaskCodes(drawn, first, published, rooms, tasks[t])
  }

  ghost predicate CodesFine(s: State, k: Task)
  {
    TaskCodes(s.drawnFor, s.first, s.published, s.rooms, k)
  }

  /** Only one thread creates a given room. */
  predicate Apart(a: Task, b: Task)
  {
    Creates(a.stage) && Creates(b.stage) ==> a.id != b.id
  }

  ghost predicate Alone(tasks: map<ThreadId, Task>)
  {
    forall t, u :: t in tasks && u in tasks && t != u ==> Apart(tasks[t], tasks[u])
  }

  ghost predicate Codes(s: State)
  {
    MapCodes(s) && AllTaskCodes(s.drawnFor, s.first, s.published, s.rooms, s.tasks) && Alone(s.tasks)
  }

  /** While a room is live all its rotations use one lock, and that lock has at most one holder. */
  ghost predicate TaskLock(live: set<RoomId>, locks: map<RoomId, LockId>, held: map<LockId, ThreadId>, made: map<LockId, RoomId>,
                           t: ThreadId, k: Task)
  {
    && (HasLock(k.stage) ==> k.lock in made && made[k.lock] == k.id)
    && (HasLock(k.stage) && k.id in live ==> k.id in locks && locks[k.id] == k.lock)
    && (Holds(k.stage) ==> k.lock in held && held[k.lock] == t)
  }

  ghost predicate LockFine(s: State, t: ThreadId, k: Task)
  {
    TaskLock(s.rooms.Keys, s.locks, s.held, s.madeFor, t, k)
  }

  ghost predicate MapLocks(locks: map<RoomId, LockId>, made: map<LockId, RoomId>)
  {
    forall id :: id in locks ==> locks[id] in made && made[locks[id]] == id
  }

  ghost predicate AllTaskLocks(live: set<RoomId>, locks: map<RoomId, LockId>, held: map<LockId, ThreadId>, made: map<LockId, RoomId>,
                               tasks: map<ThreadId, Task>)
  {
    forall t :: t in tasks ==> TaskLock(live, locks, held, made, t, tasks[t])
  }

  ghost predicate Locks(s: State)
  {
    MapLocks(s.locks, s.madeFor) && AllTaskLocks(s.rooms.Keys, s.locks, s.held, s.madeFor, s.tasks)
  }

  /** How far the rotation that holds a room's lock has got with the index. */
  datatype Turn = NoTurn | Both(previous: RoomCode, next: RoomCode) | Only(next: RoomCode)

  function TurnOf(s: State, id: RoomId): Turn
  {
    if id in s.locks && s.locks[id] in s.held && s.held[s.locks[id]] in s.tasks then
      var k := s.tasks[s.held[s.locks[id]]];
      if k.id != id then NoTurn else if k.stage.Remove? then Both(k.code, k.next) else if k.stage.Update? then Only(k.next) else NoTurn
    else NoTurn
  }

  /** Whether a code leads to a room with that current code and that rotation in progress. */
  predicate Leads(current: RoomCode, turn: Turn, c: RoomCode)
  {
    match turn
    case NoTurn => c == current
    case Both(previous, next) => c == previous || c == next
    case Only(next) => c == next
  }

  /**
   The index entries of a room: those that lead to it, except that its first code is not there before
   the creation publishes it, and stays there for good when a rotation removed it before that.
   */
  ghost predicate Entered(index: map<RoomCode, RoomId>, id: RoomId, published: bool, overtaken: bool,
                          current: RoomCode, turn: Turn, own: RoomCode)
  {
    && (forall c :: (c in index && index[c] == id) <==>
          if published then Leads(current, turn, c) || (overtaken && c == own) else Leads(current, turn, c) && c != own)
    && (overtaken ==> !Leads(current, turn, own))
    && (!published && !overtaken ==> current == own && !turn.Only?)
  }

  // What the four index operations do to the entries of their room, and what others see of them.

  lemma EntersNext(index: map<RoomCode, RoomId>, id: RoomId, published: bool, overtaken: bool, current: RoomCode, own: RoomCode, next: RoomCode)
    requires Entered(index, id, published, overtaken, current, NoTurn, own) && next != own && next != current
    ensures Entered(index[next := id], id, published, overtaken, current, Both(current, next), own)
  {
  }

  lemma LeavesPrevious(index: map<RoomCode, RoomId>, id: RoomId, published: bool, overtaken: bool, current: RoomCode, own: RoomCode, next: RoomCode)
    requires Entered(index, id, published, overtaken, current, Both(current, next), own) && next != own && next != current
    ensures Entered(index - {current}, id, published, overtaken || (current == own && !published), current, Only(next), own)
  {
  }

  lemma NextBecomesCurrent(index: map<RoomCode, RoomId>, id: RoomId, published: bool, overtaken: bool, current: RoomCode, own: RoomCode, next: RoomCode)
    requires Entered(index, id, published, overtaken, current, Only(next), own)
    ensures Entered(index, id, published, overtaken, next, NoTurn, own)
  {
  }

  lemma OwnIsPublished(index: map<RoomCode, RoomId>, id: RoomId, overtaken: bool, current: RoomCode, turn: Turn, own: RoomCode)
    requires Entered(index, id, false, overtaken, current, turn, own)
    requires turn.Both? ==> turn.previous == current
    ensures Entered(index[own := id], id, true, overtaken, current, turn, own)
  {
  }

  lemma SeenTheSame(index: map<RoomCode, RoomId>, other: map<RoomCode, RoomId>, id: RoomId, published: bool, overtaken: bool,
                    current: RoomCode, turn: Turn, own: RoomCode)
    requires Entered(index, id, published, overtaken, current, turn, own)
    requires forall c :: (c in index && index[c] == id) <==> (c in other && other[c] == id)
    ensures Entered(other, id, published, overtaken, current, turn, own)
  {
  }

  ghost predicate Core(s: State)
  {
    Codes(s) && Locks(s)
  }

  /** What holds of one room, when it is live. */
  ghost predicate RoomFine(s: State, id: RoomId)
  {
    id in s.rooms ==>
      id in s.first
      && Entered(s.index, id, id in s.published, id in s.overtaken, s.rooms[id].code, TurnOf(s, id), s.first[id].code)
  }

  ghost predicate Inv(s: State)
  {
    Core(s) && forall id :: id in s.rooms ==> RoomFine(s, id)
  }

  /** The task of a thread, together with all that holds between steps. */
  ghost predicate At(s: State, t: ThreadId, k: Task)
  {
    Core(s) && t in s.tasks && s.tasks[t] == k
  }

  lemma AloneStays(tasks: map<ThreadId, Task>, t: ThreadId, k: Task)
    requires Alone(tasks)
    requires Creates(k.stage) ==> t in tasks && Creates(tasks[t].stage) && tasks[t].id == k.id
    ensures Alone(tasks[t := k])
  {
  }

  /** The turn of a live room is that of the task that holds its lock. */
  lemma TurnOfHolder(s: State, t: ThreadId, k: Task)
    requires At(s, t, k) && Holds(k.stage) && k.id in s.rooms
    ensures k.id in s.locks && s.locks[k.id] == k.lock && k.lock in s.held && s.held[k.lock] == t
    ensures TurnOf(s, k.id) == if k.stage.Remove? then Both(k.code, k.next) else if k.stage.Update? then Only(k.next) else NoTurn
  {
    assert LockFine(s, t, k);
  }

  /** A thread may go on to any task that is fine in the present state. */
  lemma Retask(s: State, t: ThreadId, k: Task)
    requires Core(s) && CodesFine(s, k) && LockFine(s, t, k) && !Creates(k.stage)
    ensures Core(Next(s, t, k))
  {
    AloneStays(s.tasks, t, k);
  }

  lemma TurnStartsFromCurrent(s: State, id: RoomId)
    requires Core(s) && id in s.rooms
    ensures TurnOf(s, id).Both? ==> TurnOf(s, id).previous == s.rooms[id].code
  {
    if TurnOf(s, id).Both? {
      var t := s.held[s.locks[id]];
      assert CodesFine(s, s.tasks[t]);
    }
  }

  lemma RetaskKeepsRoom(s: State, t: ThreadId, k: Task, id: RoomId)
    requires Core(s) && RoomFine(s, id)
    requires t in s.tasks ==> !Turning(s.tasks[t].stage)
    requires !Turning(k.stage)
    ensures RoomFine(Next(s, t, k), id)
  {
    assert TurnOf(Next(s, t, k), id) == TurnOf(s, id);
  }

  lemma TaskCodesGrow(drawn: Draws, more: Draws, first: map<RoomId, Room>, published: set<RoomId>, rooms: map<RoomId, Room>, k: Task)
    requires TaskCodes(drawn, first, published, rooms, k)
    requires forall c :: c in drawn ==> c in more && more[c] == drawn[c]
    ensures TaskCodes(more, first, published, rooms, k)
  {
  }

  /** Drawing a new code disturbs nothing. */
  lemma CodeDrawn(s: State, c: RoomCode, id: RoomId)
    requires Core(s) && c !in s.drawnFor
    ensures Core(s.(drawnFor := s.drawnFor[c := id]))
  {
    var z := s.(drawnFor := s.drawnFor[c := id]);
    forall t | t in s.tasks
      ensures TaskCodes(z.drawnFor, s.first, s.published, s.rooms, s.tasks[t])
    {
      TaskCodesGrow(s.drawnFor, z.drawnFor, s.first, s.published, s.rooms, s.tasks[t]);
    }
  }

  /** A thread may take up the creation of a room nobody else creates. */
  lemma Enlist(s: State, t: ThreadId, k: Task)
    requires Core(s) && CodesFine(s, k) && LockFine(s, t, k) && t !in s.tasks
    requires forall u :: u in s.tasks ==> Apart(k, s.tasks[u])
    ensures Core(Next(s, t, k))
  {
  }

  lemma RoomBuiltKeepsCore(s: State, t: ThreadId, id: RoomId, room: Room)
    requires Core(s) && Enabled(s, BeginCreate(t, id, room))
    ensures Core(RoomBuilt(s, t, id, room))
  {
    var z := s.(drawnFor := s.drawnFor[room.code := id]);
    CodeDrawn(s, room.code, id);
    forall u | u in s.tasks
      ensures Creates(s.tasks[u].stage) ==> s.tasks[u].id != id
    {
      assert CodesFine(s, s.tasks[u]);
    }
    Enlist(z, t, Task(CreateRoom, id, s.now, room.code, 0, "", room));
  }

  lemma RoomBuiltKeepsRoom(s: State, t: ThreadId, id: RoomId, room: Room, other: RoomId)
    requires Core(s) && Enabled(s, BeginCreate(t, id, room)) && RoomFine(s, other)
    ensures RoomFine(RoomBuilt(s, t, id, room), other)
  {
    assert TurnOf(RoomBuilt(s, t, id, room), other) == TurnOf(s, other);
  }

  /** A room's insertion concerns no other task. */
  lemma InsertedTaskCodes(s: State, k: Task, u: Task)
    requires CodesFine(s, k) && CodesFine(s, u) && k.stage.CreateRoom? && Apart(k, u)
    ensures TaskCodes(s.drawnFor, s.first[k.id := k.room], s.published, s.rooms[k.id := k.room], u)
  {
  }

  lemma RoomInsertedKeepsCodes(s: State, t: ThreadId, k: Task)
    requires At(s, t, k) && k.stage.CreateRoom?
    ensures Codes(RoomInserted(s, t, k))
  {
    var z := RoomInserted(s, t, k);
    AloneStays(s.tasks, t, k.(stage := CreateIndex));
    assert CodesFine(z, k.(stage := CreateIndex));
    forall u | u in s.tasks && u != t
      ensures CodesFine(z, s.tasks[u])
    {
      InsertedTaskCodes(s, k, s.tasks[u]);
    }
    assert MapCodes(z);
  }

  lemma RoomInsertedKeepsLocks(s: State, t: ThreadId, k: Task)
    requires At(s, t, k) && k.stage.CreateRoom?
    ensures Locks(RoomInserted(s, t, k))
  {
  }

  lemma RoomInsertedKeepsRoom(s: State, t: ThreadId, k: Task, id: RoomId)
    requires At(s, t, k) && k.stage.CreateRoom? && RoomFine(s, id)
    ensures RoomFine(RoomInserted(s, t, k), id)
  {
    assert TurnOf(RoomInserted(s, t, k), id) == TurnOf(s, id);
    if !TurnOf(s, id).NoTurn? {
      TurnHasTask(s, id);
    }
  }

  /** A room is turned only by a rotation of it. */
  lemma TurnHasTask(s: State, id: RoomId)
    requires Core(s) && !TurnOf(s, id).NoTurn?
    ensures exists t :: t in s.tasks && Turning(s.tasks[t].stage) && s.tasks[t].id == id
    ensures id in s.first
  {
    var t := s.held[s.locks[id]];
    assert CodesFine(s, s.tasks[t]);
  }

  lemma PublishedKeepsCodes(s: State, t: ThreadId, k: Task)
    requires At(s, t, k) && k.stage.CreateIndex?
    ensures Codes(Published(s, t, k))
  {
  }

  lemma PublishedKeepsLocks(s: State, t: ThreadId, k: Task)
    requires At(s, t, k) && k.stage.CreateIndex?
    ensures Locks(Published(s, t, k))
  {
  }

  lemma PublishedKeepsRoom(s: State, t: ThreadId, k: Task, id: RoomId)
    requires At(s, t, k) && k.stage.CreateIndex? && RoomFine(s, id)
    ensures RoomFine(Published(s, t, k), id)
  {
    var z := Published(s, t, k);
    assert CodesFine(s, k);
    assert TurnOf(z, id) == TurnOf(s, id);
    if id in s.rooms && id == k.id {
      TurnStartsFromCurrent(s, id);
      OwnIsPublished(s.index, id, id in s.overtaken, s.rooms[id].code, TurnOf(s, id), k.code);
    } else if id in s.rooms {
      SeenTheSame(s.index, z.index, id, id in s.published, id in s.overtaken, s.rooms[id].code, TurnOf(s, id), s.first[id].code);
    }
  }

  lemma LockMadeKeepsCodes(s: State, t: ThreadId, k: Task, made: LockId)
    requires At(s, t, k) && k.stage.Entry? && k.id !in s.locks && made !in s.madeFor
    ensures Codes(LockMade(s, t, k, made))
  {
  }

  lemma OthersKeepLock(live: set<RoomId>, locks: map<RoomId, LockId>, held: map<LockId, ThreadId>, madeFor: map<LockId, RoomId>,
                       id: RoomId, made: LockId, t: ThreadId, k: Task)
    requires TaskLock(live, locks, held, madeFor, t, k) && id !in locks && made !in madeFor
    ensures TaskLock(live, locks[id := made], held, madeFor[made := id], t, k)
  {
  }

  lemma LockMadeKeepsLocks(s: State, t: ThreadId, k: Task, made: LockId)
    requires At(s, t, k) && k.stage.Entry? && k.id !in s.locks && made !in s.madeFor
    ensures Locks(LockMade(s, t, k, made))
  {
    var locks, madeFor := s.locks[k.id := made], s.madeFor[made := k.id];
    assert MapLocks(locks, madeFor);
    forall u | u in s.tasks
      ensures TaskLock(s.rooms.Keys, locks, s.held, madeFor, u, s.tasks[u])
    {
      OthersKeepLock(s.rooms.Keys, s.locks, s.held, s.madeFor, k.id, made, u, s.tasks[u]);
    }
  }

  lemma LockMadeKeepsRoom(s: State, t: ThreadId, k: Task, made: LockId, id: RoomId)
    requires At(s, t, k) && k.stage.Entry? && k.id !in s.locks && made !in s.madeFor && RoomFine(s, id)
    ensures RoomFine(LockMade(s, t, k, made), id)
  {
    forall u | u in s.tasks && s.tasks[u].id == k.id && k.id in s.rooms
      ensures !HasLock(s.tasks[u].stage)
    {
      assert LockFine(s, u, s.tasks[u]);
    }
    assert id in s.rooms ==> TurnOf(LockMade(s, t, k, made), id) == TurnOf(s, id);
  }

  lemma AcquiredKeepsCodes(s: State, t: ThreadId, k: Task)
    requires At(s, t, k) && k.stage.Acquire? && k.lock !in s.held
    ensures Codes(Acquired(s, t, k))
  {
  }

  lemma AcquiredKeepsLocks(s: State, t: ThreadId, k: Task)
    requires At(s, t, k) && k.stage.Acquire? && k.lock !in s.held
    ensures Locks(Acquired(s, t, k))
  {
  }

  lemma AcquiredKeepsRoom(s: State, t: ThreadId, k: Task, id: RoomId)
    requires At(s, t, k) && k.stage.Acquire? && k.lock !in s.held && RoomFine(s, id)
    ensures RoomFine(Acquired(s, t, k), id)
  {
    assert TurnOf(Acquired(s, t, k), id) == TurnOf(s, id);
  }

  lemma DrawnKeepsCore(s: State, t: ThreadId, k: Task, c: RoomCode)
    requires At(s, t, k) && k.stage.Draw? && c !in s.drawnFor
    ensures Core(Drawn(s, t, k, c))
  {
    var z := s.(drawnFor := s.drawnFor[c := k.id]);
    CodeDrawn(s, c, k.id);
    assert CodesFine(s, k) && LockFine(s, t, k);
    Retask(z, t, k.(stage := Insert, next := c));
  }

  lemma DrawnKeepsRoom(s: State, t: ThreadId, k: Task, c: RoomCode, id: RoomId)
    requires At(s, t, k) && k.stage.Draw? && c !in s.drawnFor && RoomFine(s, id)
    ensures RoomFine(Drawn(s, t, k, c), id)
  {
    assert TurnOf(Drawn(s, t, k, c), id) == TurnOf(s, id);
  }

  lemma CodeInsertedKeepsCodes(s: State, t: ThreadId, k: Task)
    requires At(s, t, k) && k.stage.Insert?
    ensures Codes(CodeInserted(s, t, k))
  {
  }

  lemma CodeInsertedKeepsLocks(s: State, t: ThreadId, k: Task)
    requires At(s, t, k) && k.stage.Insert?
    ensures Locks(CodeInserted(s, t, k))
  {
  }

  lemma CodeInsertedKeepsRoom(s: State, t: ThreadId, k: Task, id: RoomId)
    requires At(s, t, k) && k.stage.Insert? && RoomFine(s, id)
    ensures RoomFine(CodeInserted(s, t, k), id)
  {
    var z := CodeInserted(s, t, k);
    assert CodesFine(s, k);
    if id in s.rooms && id == k.id {
      TurnOfHolder(s, t, k);
      EntersNext(s.index, id, id in s.published, id in s.overtaken, k.code, s.first[id].code, k.next);
    } else if id in s.rooms {
      assert TurnOf(z, id) == TurnOf(s, id);
      SeenTheSame(s.index, z.index, id, id in s.published, id in s.overtaken, s.rooms[id].code, TurnOf(s, id), s.first[id].code);
    }
  }

  lemma CodeRemovedKeepsCodes(s: State, t: ThreadId, k: Task)
    requires At(s, t, k) && k.stage.Remove?
    ensures Codes(CodeRemoved(s, t, k))
  {
  }

  lemma CodeRemovedKeepsLocks(s: State, t: ThreadId, k: Task)
    requires At(s, t, k) && k.stage.Remove?
    ensures Locks(CodeRemoved(s, t, k))
  {
  }

  lemma CodeRemovedKeepsRoom(s: State, t: ThreadId, k: Task, id: RoomId)
    requires At(s, t, k) && k.stage.Remove? && RoomFine(s, id)
    ensures RoomFine(CodeRemoved(s, t, k), id)
  {
    var z := CodeRemoved(s, t, k);
    assert CodesFine(s, k);
    if id in s.rooms && id == k.id {
      TurnOfHolder(s, t, k);
      LeavesPrevious(s.index, id, id in s.published, id in s.overtaken, k.code, s.first[id].code, k.next);
    } else if id in s.rooms {
      assert TurnOf(z, id) == TurnOf(s, id);
      SeenTheSame(s.index, z.index, id, id in s.published, id in s.overtaken, s.rooms[id].code, TurnOf(s, id), s.first[id].code);
    }
  }

  /** No other rotation of the room knows its previous code: it would hold the same lock. */
  lemma UpdatedTaskCodes(s: State, t: ThreadId, k: Task, u: ThreadId)
    requires At(s, t, k) && k.stage.Update? && k.id in s.rooms && u in s.tasks && u != t
    ensures TaskCodes(s.drawnFor, s.first, s.published, RoomUpdated(s, t, k).rooms, s.tasks[u])
  {
    assert LockFine(s, t, k) && LockFine(s, u, s.tasks[u]);
    assert CodesFine(s, s.tasks[u]);
  }

  lemma RoomUpdatedKeepsCodes(s: State, t: ThreadId, k: Task)
    requires At(s, t, k) && k.stage.Update? && k.id in s.rooms
    ensures Codes(RoomUpdated(s, t, k))
  {
    var z := RoomUpdated(s, t, k);
    assert CodesFine(s, k);
    forall u | u in s.tasks && u != t
      ensures TaskCodes(s.drawnFor, s.first, s.published, z.rooms, s.tasks[u])
    {
      UpdatedTaskCodes(s, t, k, u);
    }
    AloneStays(s.tasks, t, k.(stage := Release));
  }

  lemma RoomUpdatedKeepsLocks(s: State, t: ThreadId, k: Task)
    requires At(s, t, k) && k.stage.Update? && k.id in s.rooms
    ensures Locks(RoomUpdated(s, t, k))
  {
  }

  lemma RoomUpdatedKeepsRoom(s: State, t: ThreadId, k: Task, id: RoomId)
    requires At(s, t, k) && k.stage.Update? && k.id in s.rooms && RoomFine(s, id)
    ensures RoomFine(RoomUpdated(s, t, k), id)
  {
    var z := RoomUpdated(s, t, k);
    assert CodesFine(s, k);
    if id in s.rooms && id == k.id {
      TurnOfHolder(s, t, k);
      NextBecomesCurrent(s.index, id, id in s.published, id in s.overtaken, k.code, s.first[id].code, k.next);
    }
  }

  lemma ReleasedKeepsCodes(s: State, t: ThreadId, k: Task)
    requires At(s, t, k) && k.stage.Release?
    ensures Codes(Released(s, t, k))
  {
  }

  lemma ReleasedKeepsLocks(s: State, t: ThreadId, k: Task)
    requires At(s, t, k) && k.stage.Release?
    ensures Locks(Released(s, t, k))
  {
  }

  lemma ReleasedKeepsRoom(s: State, t: ThreadId, k: Task, id: RoomId)
    requires At(s, t, k) && k.stage.Release? && RoomFine(s, id)
    ensures RoomFine(Released(s, t, k), id)
  {
    assert TurnOf(Released(s, t, k), id) == TurnOf(s, id);
  }

  lemma RoomDroppedKeepsCodes(s: State, t: ThreadId, k: Task)
    requires At(s, t, k) && k.stage.DropRoom?
    ensures Codes(RoomDropped(s, t, k))
  {
  }

  lemma RoomDroppedKeepsLocks(s: State, t: ThreadId, k: Task)
    requires At(s, t, k) && k.stage.DropRoom?
    ensures Locks(RoomDropped(s, t, k))
  {
  }

  lemma RoomDroppedKeepsRoom(s: State, t: ThreadId, k: Task, id: RoomId)
    requires At(s, t, k) && k.stage.DropRoom? && RoomFine(s, id)
    ensures RoomFine(RoomDropped(s, t, k), id)
  {
    assert TurnOf(RoomDropped(s, t, k), id) == TurnOf(s, id);
  }

  lemma CodeDroppedKeepsCodes(s: State, t: ThreadId, k: Task)
    requires At(s, t, k) && k.stage.DropCode?
    ensures Codes(CodeDropped(s, t, k))
  {
  }

  lemma CodeDroppedKeepsLocks(s: State, t: ThreadId, k: Task)
    requires At(s, t, k) && k.stage.DropCode?
    ensures Locks(CodeDropped(s, t, k))
  {
  }

  lemma CodeDroppedKeepsRoom(s: State, t: ThreadId, k: Task, id: RoomId)
    requires At(s, t, k) && k.stage.DropCode? && RoomFine(s, id)
    ensures RoomFine(CodeDropped(s, t, k), id)
  {
    assert TurnOf(CodeDropped(s, t, k), id) == TurnOf(s, id);
  }

  lemma LockDroppedKeepsCodes(s: State, t: ThreadId, k: Task)
    requires At(s, t, k) && k.stage.DropLock?
    ensures Codes(LockDropped(s, t, k))
  {
  }

  lemma LockDroppedKeepsLocks(s: State, t: ThreadId, k: Task)
    requires At(s, t, k) && k.stage.DropLock?
    ensures Locks(LockDropped(s, t, k))
  {
  }

  lemma LockDroppedKeepsRoom(s: State, t: ThreadId, k: Task, id: RoomId)
    requires At(s, t, k) && k.stage.DropLock? && RoomFine(s, id)
    ensures RoomFine(LockDropped(s, t, k), id)
  {
    assert id in s.rooms ==> TurnOf(LockDropped(s, t, k), id) == TurnOf(s, id);
  }

  /** The tick's removal is a read of the code followed by the removal the others do. */
  lemma SweptIsDropped(s: State, t: ThreadId, k: Task)
    requires At(s, t, k) && k.stage.DropWhenSwept? && k.id in s.rooms
    ensures var seen := k.(stage := DropRoom, code := s.rooms[k.id].code);
            && At(Next(s, t, seen), t, seen)
            && RoomDropped(Next(s, t, seen), t, seen) == RoomDropped(s, t, k.(code := s.rooms[k.id].code))
  {
    var seen := k.(stage := DropRoom, code := s.rooms[k.id].code);
    var dropped := seen.(stage := DropCode);
    assert s.tasks[t := seen][t := dropped] == s.tasks[t := dropped];
    assert CodesFine(s, k);
    Retask(s, t, seen);
  }

  lemma SweptKeepsCore(s: State, t: ThreadId, k: Task)
    requires At(s, t, k) && k.stage.DropWhenSwept? && k.id in s.rooms
    ensures Core(RoomDropped(s, t, k.(code := s.rooms[k.id].code)))
  {
    var seen := k.(stage := DropRoom, code := s.rooms[k.id].code);
    SweptIsDropped(s, t, k);
    RoomDroppedKeepsCodes(Next(s, t, seen), t, seen);
    RoomDroppedKeepsLocks(Next(s, t, seen), t, seen);
  }

  lemma SweptKeepsRoom(s: State, t: ThreadId, k: Task, id: RoomId)
    requires At(s, t, k) && k.stage.DropWhenSwept? && k.id in s.rooms && RoomFine(s, id)
    ensures RoomFine(RoomDropped(s, t, k.(code := s.rooms[k.id].code)), id)
  {
    var seen := k.(stage := DropRoom, code := s.rooms[k.id].code);
    SweptIsDropped(s, t, k);
    RetaskKeepsRoom(s, t, seen, id);
    RoomDroppedKeepsRoom(Next(s, t, seen), t, seen, id);
  }

  lemma DoneKeepsCore(s: State, t: ThreadId)
    requires Core(s)
    ensures Core(Done(s, t))
  {
  }

  lemma DoneKeepsRoom(s: State, t: ThreadId, k: Task, id: RoomId)
    requires At(s, t, k) && !Turning(k.stage) && RoomFine(s, id)
    ensures RoomFine(Done(s, t), id)
  {
    assert TurnOf(Done(s, t), id) == TurnOf(s, id);
  }

  /** A rotation whose room is gone has nothing to update. */
  lemma DeadUpdateKeepsRoom(s: State, t: ThreadId, k: Task, id: RoomId)
    requires At(s, t, k) && k.stage.Update? && k.id !in s.rooms && RoomFine(s, id)
    ensures RoomFine(Next(s, t, k.(stage := Release)), id)
  {
    assert id in s.rooms ==> TurnOf(Next(s, t, k.(stage := Release)), id) == TurnOf(s, id);
  }

  lemma PassKeepsInv(s: State, d: Duration)
    requires Inv(s)
    ensures Inv(s.(now := s.now + d))
  {
    var z := s.(now := s.now + d);
    forall id | id in z.rooms
      ensures RoomFine(z, id)
    {
      assert RoomFine(s, id) && TurnOf(z, id) == TurnOf(s, id);
    }
  }

  /** The task of a call that begins. */
  function BeginTask(s: State, a: Action): Task
    requires a.BeginRotate? || a.BeginDrop?
    requires Enabled(s, a)
  {
    if a.BeginRotate? then Begun(Entry, a.id, s.now, "")
    else if a.byTick then Begun(DropWhenSwept, a.id, s.now, "")
    else Begun(DropRoom, a.id, s.now, s.rooms[a.id].code)
  }

  lemma BeginKeepsCore(s: State, a: Action)
    requires Core(s) && Enabled(s, a) && (a.BeginRotate? || a.BeginDrop?)
    ensures Core(Next(s, a.t, BeginTask(s, a)))
  {
    assert CodesFine(s, BeginTask(s, a));
    Retask(s, a.t, BeginTask(s, a));
  }

  lemma BeginKeepsInv(s: State, a: Action)
    requires Inv(s) && Enabled(s, a) && (a.BeginRotate? || a.BeginDrop?)
    ensures Inv(Next(s, a.t, BeginTask(s, a)))
  {
    BeginKeepsCore(s, a);
    forall id | id in s.rooms
      ensures RoomFine(Next(s, a.t, BeginTask(s, a)), id)
    {
      RetaskKeepsRoom(s, a.t, BeginTask(s, a), id);
    }
  }

  lemma BuildKeepsInv(s: State, t: ThreadId, id: RoomId, room: Room)
    requires Inv(s) && Enabled(s, BeginCreate(t, id, room))
    ensures Inv(RoomBuilt(s, t, id, room))
  {
    RoomBuiltKeepsCore(s, t, id, room);
    forall other | other in s.rooms
      ensures RoomFine(RoomBuilt(s, t, id, room), other)
    {
      RoomBuiltKeepsRoom(s, t, id, room, other);
    }
  }

  /** The task a rotation goes on to when its step changes no map. */
  function Onward(s: State, k: Task): Task
  {
    match k.stage
    case Entry => if k.id in s.locks then k.(stage := Acquire, lock := s.locks[k.id]) else k
    case Read =>
      if k.id in s.rooms && s.rooms[k.id].hopping then k.(stage := Draw, code := s.rooms[k.id].code) else k.(stage := Release)
    case _ => k.(stage := Release)
  }

  predicate ChangesNoMap(s: State, k: Task, draw: Option<RoomCode>)
  {
    || (k.stage.Entry? && k.id in s.locks)
    || k.stage.Read?
    || (k.stage.Draw? && draw.None?)
    || (k.stage.Update? && k.id !in s.rooms)
  }

  lemma OnwardKeepsCore(s: State, t: ThreadId, k: Task, draw: Option<RoomCode>)
    requires At(s, t, k) && ChangesNoMap(s, k, draw)
    ensures Core(Next(s, t, Onward(s, k)))
  {
    assert CodesFine(s, k) && LockFine(s, t, k);
    assert MapCodes(s) && MapLocks(s.locks, s.madeFor);
    Retask(s, t, Onward(s, k));
  }

  lemma OnwardKeepsRoom(s: State, t: ThreadId, k: Task, draw: Option<RoomCode>, id: RoomId)
    requires At(s, t, k) && ChangesNoMap(s, k, draw) && RoomFine(s, id)
    ensures RoomFine(Next(s, t, Onward(s, k)), id)
  {
    if k.stage.Update? {
      DeadUpdateKeepsRoom(s, t, k, id);
    } else {
      RetaskKeepsRoom(s, t, Onward(s, k), id);
    }
  }

  lemma AdvanceIsOnward(s: State, t: ThreadId, k: Task, draw: Option<RoomCode>, made: LockId)
    requires At(s, t, k) && ChangesNoMap(s, k, draw)
    ensures Advance(s, t, draw, made) == Next(s, t, Onward(s, k))
  {
  }

  lemma RotationKeepsCore(s: State, t: ThreadId, k: Task, draw: Option<RoomCode>, made: LockId)
    requires At(s, t, k) && Enabled(s, Go(t, draw, made)) && Rotates(k.stage) && !ChangesNoMap(s, k, draw)
    ensures Core(Advance(s, t, draw, made))
  {
    match k.stage
    case Entry => LockMadeKeepsCodes(s, t, k, made); LockMadeKeepsLocks(s, t, k, made);
    case Acquire => AcquiredKeepsCodes(s, t, k); AcquiredKeepsLocks(s, t, k);
    case Draw => DrawnKeepsCore(s, t, k, draw.value);
    case Insert => CodeInsertedKeepsCodes(s, t, k); CodeInsertedKeepsLocks(s, t, k);
    case Remove => CodeRemovedKeepsCodes(s, t, k); CodeRemovedKeepsLocks(s, t, k);
    case Update => RoomUpdatedKeepsCodes(s, t, k); RoomUpdatedKeepsLocks(s, t, k);
    case Release => ReleasedKeepsCodes(s, t, k); ReleasedKeepsLocks(s, t, k);
  }

  lemma RotationKeepsRoom(s: State, t: ThreadId, k: Task, draw: Option<RoomCode>, made: LockId, id: RoomId)
    requires At(s, t, k) && Enabled(s, Go(t, draw, made)) && Rotates(k.stage) && !ChangesNoMap(s, k, draw)
    requires RoomFine(s, id)
    ensures RoomFine(Advance(s, t, draw, made), id)
  {
    match k.stage
    case Entry => LockMadeKeepsRoom(s, t, k, made, id);
    case Acquire => AcquiredKeepsRoom(s, t, k, id);
    case Draw => DrawnKeepsRoom(s, t, k, draw.value, id);
    case Insert => CodeInsertedKeepsRoom(s, t, k, id);
    case Remove => CodeRemovedKeepsRoom(s, t, k, id);
    case Update => RoomUpdatedKeepsRoom(s, t, k, id);
    case Release => ReleasedKeepsRoom(s, t, k, id);
  }

  lemma OthersKeepCore(s: State, t: ThreadId, k: Task, draw: Option<RoomCode>, made: LockId)
    requires At(s, t, k) && !Rotates(k.stage)
    ensures Core(Advance(s, t, draw, made))
  {
    match k.stage
    case CreateRoom => RoomInsertedKeepsCodes(s, t, k); RoomInsertedKeepsLocks(s, t, k);
    case CreateIndex => PublishedKeepsCodes(s, t, k); PublishedKeepsLocks(s, t, k);
    case DropRoom => RoomDroppedKeepsCodes(s, t, k); RoomDroppedKeepsLocks(s, t, k);
    case DropWhenSwept =>
      if k.id in s.rooms {
        SweptKeepsCore(s, t, k);
      } else {
        DoneKeepsCore(s, t);
      }
    case DropCode => CodeDroppedKeepsCodes(s, t, k); CodeDroppedKeepsLocks(s, t, k);
    case DropLock => LockDroppedKeepsCodes(s, t, k); LockDroppedKeepsLocks(s, t, k);
  }

  lemma OthersKeepRoom(s: State, t: ThreadId, k: Task, draw: Option<RoomCode>, made: LockId, id: RoomId)
    requires At(s, t, k) && !Rotates(k.stage) && RoomFine(s, id)
    ensures RoomFine(Advance(s, t, draw, made), id)
  {
    match k.stage
    case CreateRoom => RoomInsertedKeepsRoom(s, t, k, id);
    case CreateIndex => PublishedKeepsRoom(s, t, k, id);
    case DropRoom => RoomDroppedKeepsRoom(s, t, k, id);
    case DropWhenSwept =>
      if k.id in s.rooms {
        SweptKeepsRoom(s, t, k, id);
      } else {
        DoneKeepsRoom(s, t, k, id);
      }
    case DropCode => CodeDroppedKeepsRoom(s, t, k, id);
    case DropLock => LockDroppedKeepsRoom(s, t, k, id);
  }

  lemma AdvanceKeepsCore(s: State, t: ThreadId, draw: Option<RoomCode>, made: LockId)
    requires Core(s) && Enabled(s, Go(t, draw, made))
    ensures Core(Advance(s, t, draw, made))
  {
    var k := s.tasks[t];
    if !Rotates(k.stage) {
      OthersKeepCore(s, t, k, draw, made);
    } else if ChangesNoMap(s, k, draw) {
      AdvanceIsOnward(s, t, k, draw, made);
      OnwardKeepsCore(s, t, k, draw);
    } else {
      RotationKeepsCore(s, t, k, draw, made);
    }
  }

  lemma AdvanceKeepsRoom(s: State, t: ThreadId, draw: Option<RoomCode>, made: LockId, id: RoomId)
    requires Core(s) && Enabled(s, Go(t, draw, made)) && RoomFine(s, id)
    ensures RoomFine(Advance(s, t, draw, made), id)
  {
    var k := s.tasks[t];
    if !Rotates(k.stage) {
      OthersKeepRoom(s, t, k, draw, made, id);
    } else if ChangesNoMap(s, k, draw) {
      AdvanceIsOnward(s, t, k, draw, made);
      OnwardKeepsRoom(s, t, k, draw, id);
    } else {
      RotationKeepsRoom(s, t, k, draw, made, id);
    }
  }

  lemma AdvanceKeepsInv(s: State, t: ThreadId, draw: Option<RoomCode>, made: LockId)
    requires Inv(s) && Enabled(s, Go(t, draw, made))
    ensures Inv(Advance(s, t, draw, made))
  {
    AdvanceKeepsCore(s, t, draw, made);
    forall id
      ensures RoomFine(Advance(s, t, draw, made), id)
    {
      assert RoomFine(s, id);
      AdvanceKeepsRoom(s, t, draw, made, id);
    }
  }

  /** Every step of every call keeps the invariant. */
  lemma StepKeepsInv(s: State, a: Action)
    requires Inv(s) && Enabled(s, a)
    ensures Inv(Step(s, a))
  {
    hide Inv, Advance, RoomBuilt;
    match a
    case Pass(d) => PassKeepsInv(s, d);
    case BeginCreate(t, id, room) => BuildKeepsInv(s, t, id, room);
    case BeginRotate(_, _, _) => BeginKeepsInv(s, a);
    case BeginDrop(_, _, _) => BeginKeepsInv(s, a);
    case Go(t, draw, made) => AdvanceKeepsInv(s, t, draw, made);
  }

  lemma {:induction false} InvAlways(actions: seq<Action>)
    requires Legal(actions)
    ensures Inv(Run(actions))
  {
    if actions != [] {
      InvAlways(actions[..|actions| - 1]);
      StepKeepsInv(Run(actions[..|actions| - 1]), actions[|actions| - 1]);
    }
  }
}
