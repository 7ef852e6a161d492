/** How long rooms live: no lifetime can be banked, closing is final, and destruction is bounded. */
module RoomLifetime {
  import opened Basics
  import opened Rooms
  import opened RoomDirectory
  import opened RoomSteps
  import opened RoomIndex

  /** The most lifetime that can ever be left. */
  function LongestRemaining(c: Config): int
  {
    Max(c.initialDuration, c.extendableThreshold + c.extensionDuration)
  }

  /** The facts about a live room's clocks that hold at every time from the last event on. */
  ghost predicate Timely(c: Config, r: Clocks, now: Timestamp)
  {
    && r.createdAt <= now
    && r.expiresAt == r.createdAt + c.initialDuration + r.extensions * c.extensionDuration
    && r.expiresAt - now <= LongestRemaining(c)
    && (r.state.ExtendableWindow? ==> r.expiresAt - now <= c.extendableThreshold)
    && !r.state.Destroyed?
    && (r.state.Closing? <==> r.deadline.Some?)
    && (r.state.Closing? ==> r.deadline.value <= now + c.closingGrace)
  }

  lemma OneMore(k: nat, x: int)
    ensures (k + 1) * x == k * x + x
  {
  }

  /** The fields of a room that its lifetime depends on. */
  datatype Clocks = Clocks(state: Lifecycle, createdAt: Timestamp, expiresAt: Timestamp, deadline: Option<Timestamp>, extensions: nat)

  function ClocksOf(r: Room): Clocks
  {
    Clocks(r.state, r.createdAt, r.expiresAt, r.closingDeadline, r.extensionCount)
  }

  /** The five ways an event at `now` can move them. */
  ghost predicate ClocksMove(c: Config, r: Clocks, s: Clocks, now: Timestamp)
  {
    || s == r
    || (r.state.Creating? && s == r.(state := Active))
    || (r.state.ExtendableWindow?
        && s == r.(state := Active, expiresAt := r.expiresAt + c.extensionDuration, extensions := r.extensions + 1))
    || (!r.state.Closing? && !r.state.Destroyed? && s == r.(state := Closing, deadline := Some(now + c.closingGrace)))
    || ((r.state.Creating? || r.state.Active?) && r.expiresAt - now <= c.extendableThreshold && s == r.(state := ExtendableWindow))
  }

  lemma SweptMoves(c: Config, r: Room, now: Timestamp)
    requires !Dies(c, r, now)
    ensures ClocksMove(c, ClocksOf(r), ClocksOf(Swept(c, r, now).0), now)
  {
  }

  predicate MovesClocks(op: Op)
  {
    op.JoinOp? || op.ExtendOp? || op.CloseOp? || op.TickOp?
  }

  lemma HandoverClocks(r: Room, peer: PeerId)
    ensures ClocksOf(WithOwner(r, peer)) == ClocksOf(r)
  {
  }

  lemma DepartureClocks(r: Room, peer: PeerId)
    requires r.HasPeer(peer)
    ensures ClocksOf(WithoutPeer(r, peer)) == ClocksOf(r)
    ensures WithoutPeer(r, peer).peers != [] ==> ClocksOf(AfterLeave(r, peer)) == ClocksOf(r)
  {
    hide WithOwner;
    if WithoutPeer(r, peer).peers != [] {
      HandoverClocks(WithoutPeer(r, peer), WithoutPeer(r, peer).peers[0].id);
    }
  }

  lemma ModerationClocks(r: Room, s: Room, target: PeerId, m: Moderation)
    requires Moderated(r, target, m) == Success(s)
    ensures ClocksOf(s) == ClocksOf(r)
  {
  }

  /** Every other operation leaves the clocks of a room alone. */
  lemma ClocksStay(c: Config, r: Room, s: Room, e: Event)
    requires Becomes(c, r, s, e) && !MovesClocks(e.op)
    ensures ClocksOf(s) == ClocksOf(r)
  {
    hide WithOwner, WithoutPeer, AfterLeave, Moderated;
    if s != r {
      match e.op
      case LeaveOp(_, peer) => DepartureClocks(r, peer);
      case KickOp(_, _, target) => DepartureClocks(r, target);
      case TransferOp(_, _, heir) => HandoverClocks(r, heir);
      case ModerateOp(_, _, target, moderation) => ModerationClocks(r, s, target, moderation);
      case _ =>
    }
  }

  lemma BecomesMoves(c: Config, r: Room, s: Room, e: Event)
    requires Becomes(c, r, s, e)
    ensures ClocksMove(c, ClocksOf(r), ClocksOf(s), e.now)
  {
    if !MovesClocks(e.op) {
      hide Becomes;
      ClocksStay(c, r, s, e);
    } else if e.op.TickOp? && s != r {
      hide Swept;
      SweptMoves(c, r, e.now);
    } else {
      hide Swept, WithOwner, WithoutPeer, Rekey, Moderated;
    }
  }

  lemma MovesTimely(c: Config, r: Clocks, s: Clocks, was: Timestamp, now: Timestamp)
    requires Timely(c, r, was) && was <= now && ClocksMove(c, r, s, now)
    ensures Timely(c, s, now)
  {
    OneMore(r.extensions, c.extensionDuration);
  }

  ghost predicate AllTimely(c: Config, d: Directory, now: Timestamp)
  {
    forall id :: id in d.rooms ==> Timely(c, ClocksOf(d.rooms[id]), now)
  }

  lemma {:induction false} RunTimely(c: Config, es: seq<Event>)
    requires Legal(es) && es != []
    ensures AllTimely(c, Run(c, EMPTY, es), Clock(es))
  {
    var n := |es| - 1;
    var d := Run(c, EMPTY, es[..n]);
    LegalPrefix(es, n);
    if n > 0 {
      RunTimely(c, es[..n]);
    }
    NextIsFresh(c, es);
    forall id | id in Apply(c, d, es[n]).rooms
      ensures Timely(c, ClocksOf(Apply(c, d, es[n]).rooms[id]), es[n].now)
    {
      RoomAfter(c, d, es[n], id);
      if id in d.rooms {
        BecomesMoves(c, d.rooms[id], Apply(c, d, es[n]).rooms[id], es[n]);
        MovesTimely(c, ClocksOf(d.rooms[id]), ClocksOf(Apply(c, d, es[n]).rooms[id]), Clock(es[..n]), es[n].now);
      }
    }
  }

  /**
   At any moment of any run the expiry of a live room is its creation plus the initial duration plus
   one extension per successful extension, and is never further away than the larger of the initial
   duration and threshold plus extension: an owner cannot stack extensions ahead of time.
   */
  lemma {:induction false} NoBankedLifetime(c: Config, es: seq<Event>, id: RoomId, now: Timestamp)
    requires Legal(es) && es != [] && Clock(es) <= now
    requires id in Run(c, EMPTY, es).rooms
    ensures var r := Run(c, EMPTY, es).rooms[id];
            && r.expiresAt == r.createdAt + c.initialDuration + r.extensionCount * c.extensionDuration
            && r.expiresAt - now <= LongestRemaining(c)
            && r.extensionCount * c.extensionDuration <= (now - r.createdAt) + LongestRemaining(c) - c.initialDuration
  {
    RunTimely(c, es);
  }

  /** Which states a room can be in some time after it was in state `a`. */
  predicate CanFollow(a: Lifecycle, b: Lifecycle)
  {
    match a
    case Creating => true
    case Active | ExtendableWindow => !b.Creating?
    case Closing => b.Closing? || b.Destroyed?
    case Destroyed => b.Destroyed?
  }

  /** A room that has started closing keeps its deadline and its expiry. */
  ghost predicate Follows(r: Clocks, s: Clocks)
  {
    && CanFollow(r.state, s.state)
    && (r.state.Closing? && s.state.Closing? ==> s == r)
  }

  lemma MovesFollow(c: Config, r: Clocks, s: Clocks, t: Clocks, now: Timestamp)
    requires Follows(r, s) && ClocksMove(c, s, t, now)
    ensures Follows(r, t)
  {
  }

  // A room's clocks over a whole run, as a sequence.

  /** The clocks of a room after the first `n` events, if it is live then. */
  function ClocksAt(c: Config, es: seq<Event>, n: nat, id: RoomId): Option<Clocks>
    requires n <= |es|
  {
    var d := Run(c, EMPTY, es[..n]);
    if id in d.rooms then Some(ClocksOf(d.rooms[id])) else None
  }

  /** Its clocks before the run, and after each event of it. */
  function History(c: Config, es: seq<Event>, id: RoomId): (h: seq<Option<Clocks>>)
    ensures |h| == |es| + 1
  {
    (if es == [] then [] else History(c, es[..|es| - 1], id)) + [ClocksAt(c, es, |es|, id)]
  }

  lemma {:induction false} HistoryAt(c: Config, es: seq<Event>, id: RoomId, n: nat)
    requires n <= |es|
    ensures History(c, es, id)[n] == ClocksAt(c, es, n, id)
  {
    if n < |es| {
      HistoryAt(c, es[..|es| - 1], id, n);
      assert es[..|es| - 1][..n] == es[..n];
    }
  }

  /** How a room's clocks move with an event: rooms begin by being created, and ticks end those past their deadline. */
  ghost predicate HistoryStep(c: Config, id: RoomId, r: Option<Clocks>, s: Option<Clocks>, e: Event)
  {
    && (s.Some? ==> Timely(c, s.value, e.now))
    && (r.None? && s.Some? ==> e.op.CreateOp? && e.op.id == id)
    && (r.Some? && s.Some? ==>
      && ClocksMove(c, r.value, s.value, e.now)
      && (e.op.TickOp? && r.value.state.Closing? && r.value.deadline.Some? ==> e.now < r.value.deadline.value)
      && (e.op.TickOp? && e.now >= r.value.expiresAt ==> s.value.state.Closing?))
  }

  ghost predicate Chronicle(c: Config, id: RoomId, es: seq<Event>, h: seq<Option<Clocks>>)
  {
    && |h| == |es| + 1
    && h[0].None?
    && forall n :: 0 <= n < |es| ==> HistoryStep(c, id, h[n], h[n + 1], es[n])
  }

  lemma TickKeepsOnly(c: Config, d: Directory, now: Timestamp, id: RoomId)
    requires id in Tick(c, d, now).rooms
    ensures id in d.rooms && !Dies(c, d.rooms[id], now) && Tick(c, d, now).rooms[id] == Swept(c, d.rooms[id], now).0
  {
  }

  lemma SweptClocks(c: Config, r: Room, now: Timestamp)
    requires !Dies(c, r, now)
    ensures r.state.Closing? && r.closingDeadline.Some? ==> now < r.closingDeadline.value
    ensures now >= r.expiresAt ==> Swept(c, r, now).0.state.Closing?
  {
  }

  lemma StepOfHistory(c: Config, d: Directory, e: Event, id: RoomId)
    requires AllTimely(c, Apply(c, d, e), e.now) && (e.op.CreateOp? ==> e.op.id !in d.rooms)
    ensures var z := Apply(c, d, e);
            HistoryStep(c, id, if id in d.rooms then Some(ClocksOf(d.rooms[id])) else None,
                        if id in z.rooms then Some(ClocksOf(z.rooms[id])) else None, e)
  {
    var z := Apply(c, d, e);
    if id in z.rooms {
      RoomAfter(c, d, e, id);
      if id in d.rooms {
        BecomesMoves(c, d.rooms[id], z.rooms[id], e);
        if e.op.TickOp? {
          TickKeepsOnly(c, d, e.now, id);
          SweptClocks(c, d.rooms[id], e.now);
        }
      }
    }
  }

  lemma StepAt(c: Config, es: seq<Event>, id: RoomId, n: nat)
    requires Legal(es) && n < |es|
    ensures HistoryStep(c, id, ClocksAt(c, es, n, id), ClocksAt(c, es, n + 1, id), es[n])
  {
    LegalPrefix(es, n + 1);
    RunUnfolds(c, es, n);
    NextIsFresh(c, es[..n + 1]);
    assert es[..n + 1][..n] == es[..n];
    RunTimely(c, es[..n + 1]);
    StepOfHistory(c, Run(c, EMPTY, es[..n]), es[n], id);
  }

  lemma {:induction false} HistoryIsChronicle(c: Config, es: seq<Event>, id: RoomId)
    requires Legal(es)
    ensures Chronicle(c, id, es, History(c, es, id))
  {
    var h := History(c, es, id);
    forall n | 0 <= n < |es|
      ensures HistoryStep(c, id, h[n], h[n + 1], es[n])
    {
      HistoryAt(c, es, id, n);
      HistoryAt(c, es, id, n + 1);
      StepAt(c, es, id, n);
    }
    HistoryAt(c, es, id, 0);
  }

  // What every chronicle shows.

  lemma {:induction false} WasCreated(c: Config, id: RoomId, es: seq<Event>, h: seq<Option<Clocks>>, n: nat) returns (i: nat)
    requires Chronicle(c, id, es, h) && n <= |es| && h[n].Some?
    ensures i < n && es[i].op.CreateOp? && es[i].op.id == id
  {
    assert HistoryStep(c, id, h[n - 1], h[n - 1 + 1], es[n - 1]);
    if h[n - 1].Some? {
      i := WasCreated(c, id, es, h, n - 1);
    } else {
      i := n - 1;
    }
  }

  /** Ids are fresh, so a room that is gone stays gone. */
  lemma {:induction false} NoReturn(c: Config, id: RoomId, es: seq<Event>, h: seq<Option<Clocks>>, l: nat, m: nat, n: nat)
    requires Legal(es) && Chronicle(c, id, es, h) && l <= m <= n <= |es| && h[l].Some? && h[m].None?
    ensures h[n].None?
    decreases n
  {
    if m < n {
      NoReturn(c, id, es, h, l, m, n - 1);
      assert HistoryStep(c, id, h[n - 1], h[n - 1 + 1], es[n - 1]);
      var i := WasCreated(c, id, es, h, l);
    }
  }

  lemma {:induction false} FollowsAlong(c: Config, id: RoomId, es: seq<Event>, h: seq<Option<Clocks>>, m: nat, n: nat)
    requires Legal(es) && Chronicle(c, id, es, h) && m <= n <= |es| && h[m].Some? && h[n].Some?
    ensures Follows(h[m].value, h[n].value)
    decreases n
  {
    if m < n {
      if h[n - 1].None? {
        NoReturn(c, id, es, h, m, n - 1, n);
      } else {
        FollowsAlong(c, id, es, h, m, n - 1);
        assert HistoryStep(c, id, h[n - 1], h[n - 1 + 1], es[n - 1]);
        MovesFollow(c, h[m].value, h[n - 1].value, h[n].value, es[n - 1].now);
      }
    }
  }

  /** A closing room does not survive a tick at or after its deadline. */
  lemma ClosingEnds(c: Config, id: RoomId, es: seq<Event>, h: seq<Option<Clocks>>, m: nat, n: nat)
    requires Legal(es) && Chronicle(c, id, es, h) && 0 < m <= n < |es| && es[n].op.TickOp?
    requires h[m].Some? && h[m].value.state.Closing?
    requires es[n].now >= es[m - 1].now + c.closingGrace
    ensures h[n + 1].None?
  {
    if h[n].Some? {
      FollowsAlong(c, id, es, h, m, n);
      assert HistoryStep(c, id, h[m - 1], h[m - 1 + 1], es[m - 1]);
      assert HistoryStep(c, id, h[n - 1], h[n - 1 + 1], es[n - 1]);
      assert h[n].value == h[m].value;
      assert HistoryStep(c, id, h[n], h[n + 1], es[n]);
    } else {
      NoReturn(c, id, es, h, m, n, n + 1);
    }
  }

  lemma ExpiredEnds(c: Config, id: RoomId, es: seq<Event>, h: seq<Option<Clocks>>, m: nat, n: nat)
    requires Legal(es) && Chronicle(c, id, es, h) && m < n < |es| && es[m].op.TickOp? && es[n].op.TickOp?
    requires h[m].Some? && es[m].now >= h[m].value.expiresAt
    requires es[n].now >= es[m].now + c.closingGrace
    ensures h[n + 1].None?
  {
    if h[m + 1].Some? {
      assert HistoryStep(c, id, h[m], h[m + 1], es[m]);
      ClosingEnds(c, id, es, h, m + 1, n);
    } else {
      NoReturn(c, id, es, h, m, m + 1, n + 1);
    }
  }

  /** The lifecycle goes one way over any stretch of any run, and a closing room keeps its deadline. */
  lemma {:induction false} OneWay(c: Config, es: seq<Event>, m: nat, n: nat, id: RoomId)
    requires Legal(es) && m <= n <= |es|
    requires History(c, es, id)[m].Some? && History(c, es, id)[n].Some?
    ensures Follows(History(c, es, id)[m].value, History(c, es, id)[n].value)
  {
    HistoryIsChronicle(c, es, id);
    FollowsAlong(c, id, es, History(c, es, id), m, n);
  }

  /** A room that is in neither map. */
  ghost predicate Gone(d: Directory, id: RoomId)
  {
    id !in d.rooms && forall code :: code in d.index ==> d.index[code] != id
  }

  /** A room that was live and no longer is never comes back, and no code leads to it. */
  lemma {:induction false} GoneFrom(c: Config, es: seq<Event>, m: nat, n: nat, id: RoomId)
    requires Legal(es) && m <= n <= |es|
    requires History(c, es, id)[m].Some? && History(c, es, id)[n].None?
    ensures Gone(Run(c, EMPTY, es), id)
  {
    HistoryIsChronicle(c, es, id);
    NoReturn(c, id, es, History(c, es, id), m, n, |es|);
    HistoryAt(c, es, id, |es|);
    assert es[..|es|] == es;
    IndexAgreement(c, es);
  }

  /**
   Bounded destruction. Whatever happens in between, extensions attempted included: a room that a
   tick finds at or past its expiry is gone from both maps, for good, once a tick comes at least
   the grace period later. This includes rooms that never had a peer.
   */
  lemma {:induction false} ExpiredRoomsGo(c: Config, es: seq<Event>, m: nat, n: nat, id: RoomId)
    requires Legal(es) && m < n < |es| && es[m].op.TickOp? && es[n].op.TickOp?
    requires History(c, es, id)[m].Some? && es[m].now >= History(c, es, id)[m].value.expiresAt
    requires es[n].now >= es[m].now + c.closingGrace
    ensures Gone(Run(c, EMPTY, es), id)
  {
    HistoryIsChronicle(c, es, id);
    ExpiredEnds(c, id, es, History(c, es, id), m, n);
    GoneFrom(c, es, m, n + 1, id);
  }

  lemma {:induction false} CloseStartsClosing(c: Config, es: seq<Event>, m: nat, id: RoomId, owner: PeerId)
    requires m < |es| && es[m].op == CloseOp(id, owner)
    requires CloseRoom(c, Run(c, EMPTY, es[..m]), id, owner, es[m].now).1.None?
    ensures var h := History(c, es, id); h[m + 1].Some? && h[m + 1].value.state.Closing?
  {
    RunUnfolds(c, es, m);
    HistoryAt(c, es, id, m + 1);
  }

  /** The same for a room its owner closes: the first tick after the grace period ends it. */
  lemma {:induction false} ClosedRoomsGo(c: Config, es: seq<Event>, m: nat, n: nat, id: RoomId, owner: PeerId)
    requires Legal(es) && m < n < |es| && es[m].op == CloseOp(id, owner) && es[n].op.TickOp?
    requires CloseRoom(c, Run(c, EMPTY, es[..m]), id, owner, es[m].now).1.None?
    requires es[n].now >= es[m].now + c.closingGrace
    ensures Gone(Run(c, EMPTY, es), id)
  {
    CloseStartsClosing(c, es, m, id, owner);
    HistoryIsChronicle(c, es, id);
    ClosingEnds(c, id, es, History(c, es, id), m + 1, n);
    GoneFrom(c, es, m + 1, n + 1, id);
  }
}
