/**
 The lock-free connection ceiling: any number of sockets run the load / compare-exchange loop
 and drop their guards, interleaved at every atomic access.
 */
module ConnectionCeiling {

  type Socket = nat

  /** Where a socket is: before its next load, between load and exchange, holding a guard, or turned away. */
  datatype Pc = Outside | Loading | Loaded(current: int) | Holding | Refused

  datatype State = State(counter: int, pcs: map<Socket, Pc>)

  /** One atomic access (or the decision to call `acquire_connection`). */
  datatype Action = Call(s: Socket) | Load(s: Socket) | Exchange(s: Socket) | Drop(s: Socket)

  function PcOf(g: State, s: Socket): Pc
  {
    if s in g.pcs then g.pcs[s] else Outside
  }

  /** The effect of an action; a socket that is elsewhere cannot take it, and nothing happens. */
  function Step(max: nat, g: State, a: Action): State
  {
    match (a, PcOf(g, a.s))
    case (Call(s), Outside) => g.(pcs := g.pcs[s := Loading])
    case (Call(s), Refused) => g.(pcs := g.pcs[s := Loading])
    case (Load(s), Loading) =>
      g.(pcs := g.pcs[s := if g.counter >= max then Refused else Loaded(g.counter)])
    case (Exchange(s), Loaded(current)) =>
      if g.counter == current
      then State(current + 1, g.pcs[s := Holding])
      else g.(pcs := g.pcs[s := Loading])
    case (Drop(s), Holding) => State(g.counter - 1, g.pcs[s := Outside])
    case _ => g
  }

  function Run(max: nat, g: State, actions: seq<Action>): State
  {
    if actions == [] then g else Step(max, Run(max, g, actions[..|actions| - 1]), actions[|actions| - 1])
  }

  const START := State(0, map[])

  function Holders(pcs: map<Socket, Pc>): set<Socket>
  {
    set s | s in pcs && pcs[s].Holding?
  }

  ghost predicate Inv(max: nat, g: State)
  {
    && g.counter == |Holders(g.pcs)|
    && g.counter <= max
    && forall s :: s in g.pcs && g.pcs[s].Loaded? ==> g.pcs[s].current < max
  }

  lemma HoldersAfter(pcs: map<Socket, Pc>, s: Socket, pc: Pc)
    ensures var was := s in pcs && pcs[s].Holding?;
      |Holders(pcs[s := pc])| == |Holders(pcs)| + (if pc.Holding? then 1 else 0) - (if was then 1 else 0)
  {
    if pc.Holding? {
      assert Holders(pcs[s := pc]) == Holders(pcs) + {s};
    } else {
      assert Holders(pcs[s := pc]) == Holders(pcs) - {s};
    }
  }

  lemma StepKeepsInv(max: nat, g: State, a: Action)
    requires Inv(max, g)
    ensures Inv(max, Step(max, g, a))
  {
    var h := Step(max, g, a);
    if h != g {
      HoldersAfter(g.pcs, a.s, h.pcs[a.s]);
      assert h.pcs == g.pcs[a.s := h.pcs[a.s]];
    }
  }

  /** In every interleaving the counter is the number of live guards and never exceeds the ceiling. */
  lemma {:induction false} CounterCountsGuards(max: nat, actions: seq<Action>)
    ensures Inv(max, Run(max, START, actions))
  {
    if actions == [] {
      assert Holders(START.pcs) == {};
    } else {
      CounterCountsGuards(max, actions[..|actions| - 1]);
      StepKeepsInv(max, Run(max, START, actions[..|actions| - 1]), actions[|actions| - 1]);
    }
  }

  /** A load finds room if and only if fewer than `max` guards are live; who holds one changes only by exchanges and drops. */
  ghost predicate MovesGuards(max: nat, g: State, a: Action)
  {
    var h := Step(max, g, a);
    && (a.Load? && PcOf(g, a.s) == Loading ==>
          PcOf(h, a.s) == if |Holders(g.pcs)| < max then Loaded(|Holders(g.pcs)|) else Refused)
    && Holders(h.pcs)
       == (if a.Exchange? && PcOf(g, a.s) == Loaded(|Holders(g.pcs)|) then Holders(g.pcs) + {a.s}
           else if a.Drop? then Holders(g.pcs) - {a.s}
           else Holders(g.pcs))
  }

  lemma HoldersBecome(pcs: map<Socket, Pc>, s: Socket, pc: Pc)
    ensures Holders(pcs[s := pc]) == if pc.Holding? then Holders(pcs) + {s} else Holders(pcs) - {s}
  {
  }

  lemma StepMovesGuards(max: nat, g: State, a: Action)
    requires g.counter == |Holders(g.pcs)|
    ensures MovesGuards(max, g, a)
  {
    var h := Step(max, g, a);
    if h != g {
      HoldersBecome(g.pcs, a.s, h.pcs[a.s]);
    }
    assert a.s in Holders(g.pcs) <==> PcOf(g, a.s).Holding?;
    hide Holders;
    assert h == g || h.pcs == g.pcs[a.s := h.pcs[a.s]];
  }

  /**
   In every interleaving a load finds room if and only if fewer than `max` guards are live; a guard is
   gained only by an exchange of the current count and lost only by the drop of its holder.
   */
  lemma {:induction false} GuardsMove(max: nat, actions: seq<Action>, a: Action)
    ensures MovesGuards(max, Run(max, START, actions), a)
  {
    hide MovesGuards, Run;
    CounterCountsGuards(max, actions);
    StepMovesGuards(max, Run(max, START, actions), a);
  }

  /**
   Undisturbed, a socket that asks for a connection is given a guard if and only if fewer than `max` are
   live, and is refused otherwise; the other sockets are not affected.
   */
  lemma {:induction false} AloneAcquires(max: nat, actions: seq<Action>, s: Socket)
    requires PcOf(Run(max, START, actions), s) in {Outside, Refused}
    ensures var g := Run(max, START, actions);
            var h := Step(max, Step(max, Step(max, g, Call(s)), Load(s)), Exchange(s));
      && PcOf(h, s) == (if |Holders(g.pcs)| < max then Holding else Refused)
      && forall t :: t != s ==> PcOf(h, t) == PcOf(g, t)
  {
    hide Run, Holders;
    CounterCountsGuards(max, actions);
  }

  /** The action completes an acquisition or a release. */
  predicate Completes(max: nat, g: State, a: Action)
  {
    (a.Exchange? && PcOf(g, a.s) == Loaded(g.counter)) || (a.Drop? && PcOf(g, a.s).Holding?)
  }

  /**
   Lock freedom: when the exchange of a socket fails, another socket completed an acquisition
   or a release since that socket's load.
   */
  lemma {:induction false} FailedExchangeMeansProgress(max: nat, g: State, s: Socket, actions: seq<Action>)
    requires PcOf(g, s) == Loaded(g.counter)
    requires forall i :: 0 <= i < |actions| ==> actions[i].s != s
    requires !PcOf(Step(max, Run(max, g, actions), Exchange(s)), s).Holding?
    ensures exists i :: 0 <= i < |actions| && Completes(max, Run(max, g, actions[..i]), actions[i])
  {
    SocketWaits(max, g, s, actions);
    CounterMoved(max, g, actions);
  }

  lemma {:induction false} SocketWaits(max: nat, g: State, s: Socket, actions: seq<Action>)
    requires forall i :: 0 <= i < |actions| ==> actions[i].s != s
    ensures PcOf(Run(max, g, actions), s) == PcOf(g, s)
  {
    if actions != [] {
      SocketWaits(max, g, s, actions[..|actions| - 1]);
    }
  }

  lemma {:induction false} CounterMoved(max: nat, g: State, actions: seq<Action>)
    requires Run(max, g, actions).counter != g.counter
    ensures exists i :: 0 <= i < |actions| && Completes(max, Run(max, g, actions[..i]), actions[i])
  {
    var n := |actions| - 1;
    if !Completes(max, Run(max, g, actions[..n]), actions[n]) {
      CounterMoved(max, g, actions[..n]);
      var i :| 0 <= i < n && Completes(max, Run(max, g, actions[..n][..i]), actions[..n][i]);
      assert actions[..n][..i] == actions[..i];
    }
  }
}
