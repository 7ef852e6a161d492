/**
 Code rotation under interleaving. Every access to one of the manager's shared maps is one atomic
 step, and any number of rotations, creations and removals take their steps in any order while time
 passes. Joins, departures that leave someone behind and moderation touch neither the index nor a
 code; they are steps that change nothing here.
 */
module CodeRotation {
  import opened Basics

  type RoomId = nat
  type RoomCode = string
  type LockId = nat
  type ThreadId = nat

  /** What rotation sees of a room: whether it hops, how often of its own accord, and since when it has not. */
  datatype Room = Room(code: RoomCode, hopping: bool, interval: Option<nat>, owned: bool, lastRotation: Time)

  /** The periodic rotation takes a room that hops, has an owner, and is a whole positive interval past its last rotation. */
  predicate Due(r: Room, now: Time)
  {
    && r.hopping && r.owned && r.interval.Some? && r.interval.value > 0
    && now >= r.lastRotation && now - r.lastRotation >= r.interval.value * SECOND
  }

  /** What a thread does next. From `Read` to `Release` a rotation holds its lock. */
  datatype Stage =
    | CreateRoom | CreateIndex
    | Entry | Acquire | Read | Draw | Insert | Remove | Update | Release
    | DropRoom | DropWhenSwept | DropCode | DropLock

  /**
   A call in progress, begun at `at`. `code` is the drawn code of a creation, the previous code of a
   rotation or the code a removal has read; `next` is the code a rotation has drawn, and `room` the
   room a creation has built.
   */
  datatype Task = Task(stage: Stage, id: RoomId, at: Time, code: RoomCode, lock: LockId, next: RoomCode, room: Room)

  predicate Creates(g: Stage) { g.CreateRoom? || g.CreateIndex? }
  predicate Rotates(g: Stage) { g.Entry? || HasLock(g) }
  predicate HasLock(g: Stage) { g.Acquire? || Holds(g) }
  predicate Holds(g: Stage) { g.Read? || g.Release? || KnowsPrevious(g) }
  predicate KnowsPrevious(g: Stage) { g.Draw? || KnowsNext(g) }
  predicate KnowsNext(g: Stage) { g.Insert? || Turning(g) }
  predicate Turning(g: Stage) { g.Remove? || g.Update? }
  predicate Drops(g: Stage) { g.DropRoom? || g.DropWhenSwept? || g.DropCode? || g.DropLock? }

  /**
   `rooms`, `index` and `locks` are the manager's maps, `held` says which thread holds which lock, and
   `now` is the clock. The rest is history: the room each code was drawn for, the room each lock was
   made for, each room as it was inserted, the rooms that the index ever led to, those whose creation
   has completed, and those whose first code a rotation removed before their creation published it.
   */
  datatype State = State(
    rooms: map<RoomId, Room>,
    index: map<RoomCode, RoomId>,
    locks: map<RoomId, LockId>,
    held: map<LockId, ThreadId>,
    tasks: map<ThreadId, Task>,
    now: Time,
    drawnFor: map<RoomCode, RoomId>,
    madeFor: map<LockId, RoomId>,
    first: map<RoomId, Room>,
    known: set<RoomId>,
    published: set<RoomId>,
    overtaken: set<RoomId>)

  const START := State(map[], map[], map[], map[], map[], 0, map[], map[], map[], {}, {}, {})
  const NO_ROOM := Room("", false, None, false, 0)

  /**
   Time passes, or a call begins, or the call of a thread takes its next step. `draw` is the code a
   generator yields, or `None` when it gives up; `made` is the identity of a lock that may have to be
   made. A rotation is begun by a join or by the periodic sweep. A removal is begun by the last
   departure or a detonation, which read the code first, or by the lifecycle tick, which reads it
   when it removes the room.
   */
  datatype Action =
    | Pass(d: Duration)
    | BeginCreate(t: ThreadId, id: RoomId, room: Room)
    | BeginRotate(t: ThreadId, id: RoomId, bySweep: bool)
    | BeginDrop(t: ThreadId, id: RoomId, byTick: bool)
    | Go(t: ThreadId, draw: Option<RoomCode>, made: LockId)

  /**
   Room ids are fresh, codes are never drawn twice, locks are distinct objects and exclusive. A room
   is built at the present instant. A join rotates a room that the index led it to; the sweep rotates
   any room in the map that is due.
   */
  ghost predicate Enabled(s: State, a: Action)
  {
    match a
    case Pass(_) => true
    case BeginCreate(t, id, room) =>
      && t !in s.tasks && room.code !in s.drawnFor && room.lastRotation == s.now && id !in s.first
      && (forall u :: u in s.tasks && s.tasks[u].stage.CreateRoom? ==> s.tasks[u].id != id)
    case BeginRotate(t, id, bySweep) =>
      t !in s.tasks && if bySweep then id in s.rooms && Due(s.rooms[id], s.now) else id in s.known
    case BeginDrop(t, id, _) => t !in s.tasks && id in s.rooms
    case Go(t, draw, made) =>
      && t in s.tasks
      && (s.tasks[t].stage.Entry? && s.tasks[t].id !in s.locks ==> made !in s.madeFor)
      && (s.tasks[t].stage.Acquire? ==> s.tasks[t].lock !in s.held)
      && (s.tasks[t].stage.Draw? && draw.Some? ==> draw.value !in s.drawnFor)
  }

  function Next(s: State, t: ThreadId, task: Task): State
  {
    s.(tasks := s.tasks[t := task])
  }

  function Done(s: State, t: ThreadId): State
  {
    s.(tasks := s.tasks - {t})
  }

  function Begun(stage: Stage, id: RoomId, at: Time, code: RoomCode): Task
  {
    Task(stage, id, at, code, 0, "", NO_ROOM)
  }

  // The atomic steps that change a map.

  function RoomBuilt(s: State, t: ThreadId, id: RoomId, room: Room): State
  {
    Next(s.(drawnFor := s.drawnFor[room.code := id]), t, Task(CreateRoom, id, s.now, room.code, 0, "", room))
  }

  function RoomInserted(s: State, t: ThreadId, k: Task): State
  {
    Next(s.(rooms := s.rooms[k.id := k.room], first := s.first[k.id := k.room]), t, k.(stage := CreateIndex))
  }

  function Published(s: State, t: ThreadId, k: Task): State
  {
    Done(s.(index := s.index[k.code := k.id], known := s.known + {k.id}, published := s.published + {k.id}), t)
  }

  function LockMade(s: State, t: ThreadId, k: Task, made: LockId): State
  {
    Next(s.(locks := s.locks[k.id := made], madeFor := s.madeFor[made := k.id]), t, k.(stage := Acquire, lock := made))
  }

  function Acquired(s: State, t: ThreadId, k: Task): State
  {
    Next(s.(held := s.held[k.lock := t]), t, k.(stage := Read))
  }

  function Drawn(s: State, t: ThreadId, k: Task, c: RoomCode): State
  {
    Next(s.(drawnFor := s.drawnFor[c := k.id]), t, k.(stage := Insert, next := c))
  }

  function CodeInserted(s: State, t: ThreadId, k: Task): State
  {
    Next(s.(index := s.index[k.next := k.id], known := s.known + {k.id}), t, k.(stage := Remove))
  }

  /** The rotation removes the code with which the room was inserted, before the creation has put it into the index. */
  predicate Overtakes(s: State, k: Task)
  {
    k.id in s.first && k.code == s.first[k.id].code && k.id !in s.published
  }

  function CodeRemoved(s: State, t: ThreadId, k: Task): State
  {
    Next(s.(index := s.index - {k.code}, overtaken := s.overtaken + if Overtakes(s, k) then {k.id} else {}),
         t, k.(stage := Update))
  }

  function RoomUpdated(s: State, t: ThreadId, k: Task): State
    requires k.id in s.rooms
  {
    Next(s.(rooms := s.rooms[k.id := s.rooms[k.id].(code := k.next, lastRotation := k.at)]), t, k.(stage := Release))
  }

  function Released(s: State, t: ThreadId, k: Task): State
  {
    Done(s.(held := s.held - {k.lock}), t)
  }

  function RoomDropped(s: State, t: ThreadId, k: Task): State
  {
    Next(s.(rooms := s.rooms - {k.id}), t, k.(stage := DropCode))
  }

  function CodeDropped(s: State, t: ThreadId, k: Task): State
  {
    Next(s.(index := s.index - {k.code}), t, k.(stage := DropLock))
  }

  function LockDropped(s: State, t: ThreadId, k: Task): State
  {
    Done(s.(locks := s.locks - {k.id}), t)
  }

  /** The next step of thread `t`. */
  function Advance(s: State, t: ThreadId, draw: Option<RoomCode>, made: LockId): State
    requires t in s.tasks
  {
    var k := s.tasks[t];
    match k.stage
    case CreateRoom => RoomInserted(s, t, k)
    case CreateIndex => Published(s, t, k)
    case Entry =>
      if k.id in s.locks then Next(s, t, k.(stage := Acquire, lock := s.locks[k.id])) else LockMade(s, t, k, made)
    case Acquire => Acquired(s, t, k)
    case Read =>
      if k.id in s.rooms && s.rooms[k.id].hopping then Next(s, t, k.(stage := Draw, code := s.rooms[k.id].code))
      else Next(s, t, k.(stage := Release))
    case Draw => if draw.None? then Next(s, t, k.(stage := Release)) else Drawn(s, t, k, draw.value)
    case Insert => CodeInserted(s, t, k)
    case Remove => CodeRemoved(s, t, k)
    case Update => if k.id in s.rooms then RoomUpdated(s, t, k) else Next(s, t, k.(stage := Release))
    case Release => Released(s, t, k)
    case DropRoom => RoomDropped(s, t, k)
    case DropWhenSwept =>
      if k.id in s.rooms then RoomDropped(s, t, k.(code := s.rooms[k.id].code)) else Done(s, t)
    case DropCode => CodeDropped(s, t, k)
    case DropLock => LockDropped(s, t, k)
  }

  ghost function Step(s: State, a: Action): State
    requires Enabled(s, a)
  {
    match a
    case Pass(d) => s.(now := s.now + d)
    case BeginCreate(t, id, room) => RoomBuilt(s, t, id, room)
    case BeginRotate(t, id, _) => Next(s, t, Begun(Entry, id, s.now, ""))
    case BeginDrop(t, id, byTick) =>
      Next(s, t, if byTick then Begun(DropWhenSwept, id, s.now, "") else Begun(DropRoom, id, s.now, s.rooms[id].code))
    case Go(t, draw, made) => Advance(s, t, draw, made)
  }

  ghost predicate Legal(actions: seq<Action>)
    decreases |actions|, 0
  {
    actions != [] ==>
      Legal(actions[..|actions| - 1]) && Enabled(Run(actions[..|actions| - 1]), actions[|actions| - 1])
  }

  ghost function Run(actions: seq<Action>): State
    requires Legal(actions)
    decreases |actions|, 1
  {
    if actions == [] then START else Step(Run(actions[..|actions| - 1]), actions[|actions| - 1])
  }
}
