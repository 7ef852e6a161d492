/**
 The chat store as a replicated set: peers merge each other's histories, drop what they already
 have by id, and keep the list ordered by timestamp and id.
 */
module ChatHistory {

  /** What all peers see of a message. */
  datatype Core = Core(id: string, sender: string, body: string, timestamp: int)

  /** A stored message, with the fields that differ from peer to peer. */
  datatype Message = Message(core: Core, isSelf: bool, isHistory: bool, senderPeerId: string)

  type Store = seq<Message>

  /** `a.localeCompare(b) <= 0`. */
  type IdOrder = (string, string) -> bool

  ghost predicate TotalOrder(leq: IdOrder)
  {
    && (forall a, b :: leq(a, b) || leq(b, a))
    && (forall a, b :: leq(a, b) && leq(b, a) ==> a == b)
    && (forall a, b, c :: leq(a, b) && leq(b, c) ==> leq(a, c))
  }

  /** The comparison the store sorts with. */
  predicate NotAfter(leq: IdOrder, a: Core, b: Core)
  {
    if a.timestamp != b.timestamp then a.timestamp < b.timestamp else leq(a.id, b.id)
  }

  predicate Before(leq: IdOrder, a: Core, b: Core)
  {
    NotAfter(leq, a, b) && a.id != b.id
  }

  /** Inserts behind everything that is not after `m`; repeated insertion is a stable sort. */
  function Insert(leq: IdOrder, s: Store, m: Message): Store
  {
    if s == [] || NotAfter(leq, s[|s| - 1].core, m.core) then s + [m]
    else Insert(leq, s[..|s| - 1], m) + [s[|s| - 1]]
  }

  function Sort(leq: IdOrder, s: Store): Store
  {
    if s == [] then [] else Insert(leq, Sort(leq, s[..|s| - 1]), s[|s| - 1])
  }

  function Ids(s: Store): set<string>
  {
    set m | m in s :: m.core.id
  }

  /** The messages of `incoming` whose id is neither in `known` nor earlier in `incoming`. */
  function NewOnes(known: set<string>, incoming: Store): Store
    decreases |incoming|
  {
    if incoming == [] then []
    else if incoming[0].core.id in known then NewOnes(known, incoming[1..])
    else [incoming[0]] + NewOnes(known + {incoming[0].core.id}, incoming[1..])
  }

  function Merge(leq: IdOrder, s: Store, incoming: Store): Store
  {
    var novel := NewOnes(Ids(s), incoming);
    if novel == [] then s else Sort(leq, s + novel)
  }

  function Add(leq: IdOrder, s: Store, m: Message): Store
  {
    if m.core.id in Ids(s) then s
    else if s != [] && m.core.timestamp < s[|s| - 1].core.timestamp then Sort(leq, s + [m])
    else s + [m]
  }

  function Cores(s: Store): seq<Core>
  {
    seq(|s|, i requires 0 <= i < |s| => s[i].core)
  }

  /** The first message with each id. */
  function View(s: Store): map<string, Core>
  {
    if s == [] then map[] else View(s[1..])[s[0].core.id := s[0].core]
  }

  ghost predicate DistinctIds(s: Store)
  {
    forall i, j :: 0 <= i < j < |s| ==> s[i].core.id != s[j].core.id
  }

  /** Sorted by timestamp and id, without repeated ids. */
  ghost predicate Canonical(leq: IdOrder, s: Store)
  {
    forall i, j :: 0 <= i < j < |s| ==> Before(leq, s[i].core, s[j].core)
  }

  ghost predicate TimeOrdered(s: Store)
  {
    forall i, j :: 0 <= i < j < |s| ==> s[i].core.timestamp <= s[j].core.timestamp
  }

  // Views.

  lemma {:induction false} ViewKeys(s: Store)
    ensures View(s).Keys == Ids(s)
    ensures forall k :: k in View(s) ==> View(s)[k].id == k
  {
    if s != [] {
      ViewKeys(s[1..]);
      assert s == [s[0]] + s[1..];
    }
  }

  lemma {:induction false} ViewConcat(s: Store, t: Store)
    ensures View(s + t) == View(t) + View(s)
  {
    if s == [] {
      assert s + t == t;
    } else {
      assert (s + t)[1..] == s[1..] + t;
      ViewConcat(s[1..], t);
    }
  }

  lemma {:induction false} ViewAt(s: Store, i: nat)
    requires DistinctIds(s) && i < |s|
    ensures s[i].core.id in View(s) && View(s)[s[i].core.id] == s[i].core
  {
    if i > 0 {
      ViewAt(s[1..], i - 1);
    }
  }

  lemma {:induction false} ViewSnoc(s: Store, m: Message)
    ensures View(s + [m]) == map[m.core.id := m.core] + View(s)
  {
    ViewConcat(s, [m]);
    assert View([m]) == map[m.core.id := m.core];
  }

  lemma EmptyIds(s: Store)
    ensures s == [] <==> Ids(s) == {}
  {
    if s != [] {
      assert s[0].core.id in Ids(s);
    }
  }

  /** Moving a message with a new id from the end to any other place does not change the view. */
  lemma {:induction false} InsertView(leq: IdOrder, s: Store, m: Message)
    requires m.core.id !in View(s)
    ensures View(Insert(leq, s, m)) == View(s)[m.core.id := m.core]
  {
    hide View, NotAfter;
    if s == [] || NotAfter(leq, s[|s| - 1].core, m.core) {
      ViewSnoc(s, m);
    } else {
      var front, last := s[..|s| - 1], s[|s| - 1];
      assert s == front + [last];
      ViewSnoc(front, last);
      InsertView(leq, front, m);
      ViewSnoc(Insert(leq, front, m), last);
    }
  }

  /** Inserting a new id into a canonical list keeps it canonical. */
  lemma {:induction false} InsertCanonical(leq: IdOrder, s: Store, m: Message)
    requires TotalOrder(leq) && Canonical(leq, s) && m.core.id !in Ids(s)
    ensures Canonical(leq, Insert(leq, s, m))
    ensures forall x :: x in Insert(leq, s, m) <==> x in s || x == m
  {
    if s != [] && !NotAfter(leq, s[|s| - 1].core, m.core) {
      var front, last := s[..|s| - 1], s[|s| - 1];
      assert s == front + [last];
      InsertCanonical(leq, front, m);
      assert Before(leq, m.core, last.core);
      forall x | x in Insert(leq, front, m)
        ensures Before(leq, x.core, last.core)
      {
      }
    } else if s != [] {
      assert Before(leq, s[|s| - 1].core, m.core);
    }
  }

  lemma LastIsNew(s: Store)
    requires DistinctIds(s) && s != []
    ensures DistinctIds(s[..|s| - 1]) && s[|s| - 1].core.id !in Ids(s[..|s| - 1])
  {
  }

  lemma EmptyCanonical(leq: IdOrder)
    ensures Canonical(leq, [])
  {
  }

  lemma {:induction false} SortCanonical(leq: IdOrder, s: Store)
    requires TotalOrder(leq) && DistinctIds(s)
    ensures Canonical(leq, Sort(leq, s)) && View(Sort(leq, s)) == View(s)
  {
    hide Canonical, Insert, TotalOrder, NotAfter;
    if s == [] {
      EmptyCanonical(leq);
    } else {
      hide View, DistinctIds, Ids;
      var front, last := s[..|s| - 1], s[|s| - 1];
      var sorted := Sort(leq, front);
      assert s == front + [last];
      LastIsNew(s);
      SortCanonical(leq, front);
      ViewKeys(front);
      ViewKeys(sorted);
      InsertCanonical(leq, sorted, last);
      InsertView(leq, sorted, last);
      ViewSnoc(front, last);
    }
  }

  /** The last message of a canonical list comes after every message of a list with the same view. */
  lemma {:induction false} LastIsGreatest(leq: IdOrder, s: Store, t: Store)
    requires TotalOrder(leq) && Canonical(leq, s) && Canonical(leq, t) && View(s) == View(t) && s != [] && t != []
    ensures NotAfter(leq, t[|t| - 1].core, s[|s| - 1].core)
  {
    ViewKeys(s);
    ViewKeys(t);
    ViewAt(t, |t| - 1);
    var id := t[|t| - 1].core.id;
    assert id in Ids(s);
    var m :| m in s && m.core.id == id;
    var i :| 0 <= i < |s| && s[i] == m;
    ViewAt(s, i);
    assert i < |s| - 1 ==> Before(leq, s[i].core, s[|s| - 1].core);
    assert leq(id, id);
  }

  lemma {:induction false} DropLast(leq: IdOrder, s: Store)
    requires Canonical(leq, s) && s != []
    ensures Canonical(leq, s[..|s| - 1])
    ensures View(s[..|s| - 1]) == View(s) - {s[|s| - 1].core.id}
  {
    var front, last := s[..|s| - 1], s[|s| - 1];
    assert s == front + [last];
    ViewConcat(front, [last]);
    ViewKeys(front);
    assert last.core.id !in Ids(front);
  }

  lemma Antisymmetric(leq: IdOrder, a: Core, b: Core)
    requires TotalOrder(leq) && NotAfter(leq, a, b) && NotAfter(leq, b, a)
    ensures a.id == b.id
  {
  }

  /** Two canonical lists with one view end in the same message. */
  lemma {:induction false} SameLast(leq: IdOrder, s: Store, t: Store)
    requires TotalOrder(leq) && Canonical(leq, s) && Canonical(leq, t) && View(s) == View(t) && s != [] && t != []
    ensures s[|s| - 1].core == t[|t| - 1].core
  {
    hide View, Canonical, TotalOrder, NotAfter, DistinctIds;
    LastIsGreatest(leq, s, t);
    LastIsGreatest(leq, t, s);
    Antisymmetric(leq, s[|s| - 1].core, t[|t| - 1].core);
    CanonicalDistinct(leq, s);
    CanonicalDistinct(leq, t);
    ViewAt(s, |s| - 1);
    ViewAt(t, |t| - 1);
  }

  lemma CoresSnoc(s: Store)
    requires s != []
    ensures Cores(s) == Cores(s[..|s| - 1]) + [s[|s| - 1].core]
  {
  }

  /** The list can be read off the view: two canonical lists with one view show the same messages. */
  lemma {:induction false} CanonicalUnique(leq: IdOrder, s: Store, t: Store)
    requires TotalOrder(leq) && Canonical(leq, s) && Canonical(leq, t) && View(s) == View(t)
    ensures Cores(s) == Cores(t)
  {
    hide View, Canonical, TotalOrder, Ids;
    ViewKeys(s);
    ViewKeys(t);
    EmptyIds(s);
    EmptyIds(t);
    if s != [] {
      hide Cores;
      SameLast(leq, s, t);
      DropLast(leq, s);
      DropLast(leq, t);
      CanonicalUnique(leq, s[..|s| - 1], t[..|t| - 1]);
      CoresSnoc(s);
      CoresSnoc(t);
    }
  }

  // Merging.

  lemma IdsCons(m: Message, rest: Store)
    ensures Ids([m] + rest) == {m.core.id} + Ids(rest)
    ensures DistinctIds(rest) && m.core.id !in Ids(rest) ==> DistinctIds([m] + rest)
  {
    var s := [m] + rest;
    assert s[1..] == rest;
    assert forall i :: 0 < i < |s| ==> s[i] == rest[i - 1];
    assert forall x :: x in s <==> x == m || x in rest;
    assert forall i :: 0 <= i < |rest| ==> rest[i].core.id in Ids(rest);
  }

  lemma {:induction false} NewOnesIds(known: set<string>, incoming: Store)
    ensures DistinctIds(NewOnes(known, incoming))
    ensures Ids(NewOnes(known, incoming)) == Ids(incoming) - known
    decreases |incoming|
  {
    if incoming != [] {
      var m, rest := incoming[0], incoming[1..];
      assert incoming == [m] + rest;
      hide Ids, DistinctIds;
      IdsCons(m, rest);
      if m.core.id in known {
        NewOnesIds(known, rest);
      } else {
        NewOnesIds(known + {m.core.id}, rest);
        IdsCons(m, NewOnes(known + {m.core.id}, rest));
      }
    }
  }

  lemma {:induction false} NewOnesView(known: set<string>, incoming: Store)
    ensures View(NewOnes(known, incoming)) == View(incoming) - known
    decreases |incoming|
  {
    if incoming != [] {
      var m, rest := incoming[0], incoming[1..];
      if m.core.id in known {
        NewOnesView(known, rest);
      } else {
        NewOnesView(known + {m.core.id}, rest);
        assert NewOnes(known, incoming)[1..] == NewOnes(known + {m.core.id}, rest);
      }
    }
  }

  lemma {:induction false} NewOnesShape(known: set<string>, incoming: Store)
    ensures DistinctIds(NewOnes(known, incoming))
    ensures Ids(NewOnes(known, incoming)) == Ids(incoming) - known
    ensures View(NewOnes(known, incoming)) == View(incoming) - known
  {
    NewOnesIds(known, incoming);
    NewOnesView(known, incoming);
  }

  /** Merging overlays the store on the incoming view and leaves a canonical list. */
  lemma {:induction false} MergeShape(leq: IdOrder, s: Store, incoming: Store)
    requires TotalOrder(leq) && Canonical(leq, s)
    ensures Canonical(leq, Merge(leq, s, incoming))
    ensures View(Merge(leq, s, incoming)) == View(incoming) + View(s)
  {
    CanonicalDistinct(leq, s);
    MergeOntoDistinct(leq, s, incoming);
  }

  lemma {:induction false} AppendNew(s: Store, incoming: Store)
    requires DistinctIds(s)
    ensures var novel := NewOnes(Ids(s), incoming);
      DistinctIds(s + novel) && View(s + novel) == View(incoming) + View(s)
  {
    var novel := NewOnes(Ids(s), incoming);
    NewOnesShape(Ids(s), incoming);
    ViewKeys(s);
    ViewConcat(s, novel);
    forall i, j | 0 <= i < |s| && 0 <= j < |novel|
      ensures s[i].core.id != novel[j].core.id
    {
      assert s[i].core.id in Ids(s) && novel[j].core.id in Ids(novel);
    }
  }

  /** The same for a store that is not sorted, provided something new arrives. */
  lemma {:induction false} MergeOntoDistinct(leq: IdOrder, s: Store, incoming: Store)
    requires TotalOrder(leq) && DistinctIds(s)
    ensures NewOnes(Ids(s), incoming) != [] ==> Canonical(leq, Merge(leq, s, incoming))
    ensures DistinctIds(Merge(leq, s, incoming))
    ensures View(Merge(leq, s, incoming)) == View(incoming) + View(s)
  {
    var novel := NewOnes(Ids(s), incoming);
    AppendNew(s, incoming);
    SortCanonical(leq, s + novel);
    CanonicalDistinct(leq, Sort(leq, s + novel));
    if novel == [] {
      assert s + novel == s;
    }
  }

  lemma CanonicalDistinct(leq: IdOrder, s: Store)
    requires Canonical(leq, s)
    ensures DistinctIds(s)
  {
    forall i, j | 0 <= i < j < |s|
      ensures s[i].core.id != s[j].core.id
    {
      assert Before(leq, s[i].core, s[j].core);
    }
  }

  function MergeAll(leq: IdOrder, s: Store, batches: seq<Store>): Store
  {
    if batches == [] then s else Merge(leq, MergeAll(leq, s, batches[..|batches| - 1]), batches[|batches| - 1])
  }

  /** All ids that occur in the batches. */
  function AllIds(batches: seq<Store>): set<string>
  {
    if batches == [] then {} else AllIds(batches[..|batches| - 1]) + Ids(batches[|batches| - 1])
  }

  /** Ids determine messages: every message of the batch is the one `world` has under its id. */
  ghost predicate Truthful(world: map<string, Core>, batch: Store)
  {
    forall m :: m in batch ==> m.core.id in world && world[m.core.id] == m.core
  }

  lemma {:induction false} TruthfulView(world: map<string, Core>, s: Store)
    requires Truthful(world, s)
    ensures View(s) == map k | k in Ids(s) :: world[k]
  {
    ViewKeys(s);
    if s != [] {
      assert s == [s[0]] + s[1..];
      TruthfulView(world, s[1..]);
      ViewKeys(s[1..]);
    }
  }

  lemma {:induction false} MergeAllShape(leq: IdOrder, world: map<string, Core>, batches: seq<Store>)
    requires TotalOrder(leq) && forall i :: 0 <= i < |batches| ==> Truthful(world, batches[i])
    ensures AllIds(batches) <= world.Keys
    ensures Canonical(leq, MergeAll(leq, [], batches))
    ensures View(MergeAll(leq, [], batches)) == map k | k in AllIds(batches) :: world[k]
  {
    if batches != [] {
      var front, last := batches[..|batches| - 1], batches[|batches| - 1];
      MergeAllShape(leq, world, front);
      MergeShape(leq, MergeAll(leq, [], front), last);
      TruthfulView(world, last);
      assert Ids(last) <= world.Keys;
    }
  }

  /**
   Convergence: peers that received the same messages, in any order and any grouping into
   batches, show the same list.
   */
  lemma {:induction false} Convergence(leq: IdOrder, world: map<string, Core>, a: seq<Store>, b: seq<Store>)
    requires TotalOrder(leq)
    requires forall i :: 0 <= i < |a| ==> Truthful(world, a[i])
    requires forall i :: 0 <= i < |b| ==> Truthful(world, b[i])
    requires AllIds(a) == AllIds(b)
    ensures Cores(MergeAll(leq, [], a)) == Cores(MergeAll(leq, [], b))
  {
    MergeAllShape(leq, world, a);
    MergeAllShape(leq, world, b);
    CanonicalUnique(leq, MergeAll(leq, [], a), MergeAll(leq, [], b));
  }

  ghost predicate Agree(s: map<string, Core>, t: map<string, Core>)
  {
    forall k :: k in s && k in t ==> s[k] == t[k]
  }

  lemma {:induction false} MergeTwice(leq: IdOrder, s: Store, a: Store, b: Store)
    requires TotalOrder(leq) && Canonical(leq, s)
    ensures Canonical(leq, Merge(leq, Merge(leq, s, a), b))
    ensures View(Merge(leq, Merge(leq, s, a), b)) == View(b) + (View(a) + View(s))
  {
    MergeShape(leq, s, a);
    MergeShape(leq, Merge(leq, s, a), b);
  }

  lemma OverlayCommutesIff(a: map<string, Core>, b: map<string, Core>, s: map<string, Core>)
    ensures b + (a + s) == a + (b + s) <==> Agree(a - s.Keys, b - s.Keys)
  {
    var l, r := b + (a + s), a + (b + s);
    if l == r {
      forall k | k in a - s.Keys && k in b - s.Keys
        ensures a[k] == b[k]
      {
        assert l[k] == a[k] && r[k] == b[k];
      }
    }
    if Agree(a - s.Keys, b - s.Keys) {
      forall k | k in l.Keys + r.Keys
        ensures k in l && k in r && l[k] == r[k]
      {
        assert k !in s && k in a && k in b ==> k in a - s.Keys && k in b - s.Keys;
      }
      assert l == r;
    }
  }

  /** Without that assumption: two batches commute exactly when they agree on the ids new to the store. */
  lemma {:induction false} MergeCommutesIff(leq: IdOrder, s: Store, a: Store, b: Store)
    requires TotalOrder(leq) && Canonical(leq, s)
    ensures Cores(Merge(leq, Merge(leq, s, a), b)) == Cores(Merge(leq, Merge(leq, s, b), a))
       <==> Agree(View(a) - View(s).Keys, View(b) - View(s).Keys)
  {
    MergeTwice(leq, s, a, b);
    MergeTwice(leq, s, b, a);
    OverlayCommutesIff(View(a), View(b), View(s));
    var ab, ba := Merge(leq, Merge(leq, s, a), b), Merge(leq, Merge(leq, s, b), a);
    if View(ab) == View(ba) {
      CanonicalUnique(leq, ab, ba);
    } else if Cores(ab) == Cores(ba) {
      CoresView(ab, ba);
    }
  }

  lemma {:induction false} CoresView(s: Store, t: Store)
    requires Cores(s) == Cores(t)
    ensures View(s) == View(t)
  {
    assert |s| == |Cores(s)| == |Cores(t)| == |t|;
    if s != [] {
      assert s[0].core == Cores(s)[0] == Cores(t)[0] == t[0].core;
      assert Cores(s[1..]) == Cores(s)[1..] && Cores(t[1..]) == Cores(t)[1..];
      CoresView(s[1..], t[1..]);
    }
  }

  /** Merging the same batch twice changes nothing. */
  lemma MergeIdempotent(leq: IdOrder, s: Store, a: Store)
    requires TotalOrder(leq) && Canonical(leq, s)
    ensures Merge(leq, Merge(leq, s, a), a) == Merge(leq, s, a)
  {
    var once := Merge(leq, s, a);
    MergeShape(leq, s, a);
    ViewKeys(once);
    ViewKeys(a);
    NewOnesShape(Ids(once), a);
    EmptyIds(NewOnes(Ids(once), a));
  }

  /** Merging a peer's merged list is merging what went into it. */
  lemma MergeAssociative(leq: IdOrder, s: Store, t: Store, u: Store)
    requires TotalOrder(leq) && Canonical(leq, s) && Canonical(leq, t)
    ensures Cores(Merge(leq, s, Merge(leq, t, u))) == Cores(Merge(leq, Merge(leq, s, t), u))
  {
    MergeShape(leq, t, u);
    MergeShape(leq, s, Merge(leq, t, u));
    MergeTwice(leq, s, t, u);
    OverlayAssociative(View(u), View(t), View(s));
    CanonicalUnique(leq, Merge(leq, s, Merge(leq, t, u)), Merge(leq, Merge(leq, s, t), u));
  }

  lemma OverlayAssociative(u: map<string, Core>, t: map<string, Core>, s: map<string, Core>)
    ensures (u + t) + s == u + (t + s)
  {
  }

  // Live messages and merges mixed.

  datatype ChatEvent = Live(m: Message) | History(batch: Store)

  function React(leq: IdOrder, s: Store, e: ChatEvent): Store
  {
    match e
    case Live(m) => Add(leq, s, m)
    case History(batch) => Merge(leq, s, batch)
  }

  function ReactAll(leq: IdOrder, es: seq<ChatEvent>): Store
  {
    if es == [] then [] else React(leq, ReactAll(leq, es[..|es| - 1]), es[|es| - 1])
  }

  function EventIds(e: ChatEvent): set<string>
  {
    match e
    case Live(m) => {m.core.id}
    case History(batch) => Ids(batch)
  }

  function AllEventIds(es: seq<ChatEvent>): set<string>
  {
    if es == [] then {} else AllEventIds(es[..|es| - 1]) + EventIds(es[|es| - 1])
  }

  lemma CanonicalIsOrdered(leq: IdOrder, s: Store)
    requires Canonical(leq, s)
    ensures TimeOrdered(s) && DistinctIds(s)
  {
    forall i, j | 0 <= i < j < |s|
      ensures s[i].core.timestamp <= s[j].core.timestamp && s[i].core.id != s[j].core.id
    {
      assert Before(leq, s[i].core, s[j].core);
    }
  }

  lemma AppendShape(s: Store, m: Message)
    requires DistinctIds(s) && m.core.id !in Ids(s)
    ensures DistinctIds(s + [m]) && Ids(s + [m]) == Ids(s) + {m.core.id}
  {
    assert forall i :: 0 <= i < |s| ==> s[i].core.id in Ids(s);
    assert forall x :: x in s + [m] <==> x in s || x == m;
  }

  lemma AppendInTime(s: Store, m: Message)
    requires TimeOrdered(s) && (s == [] || s[|s| - 1].core.timestamp <= m.core.timestamp)
    ensures TimeOrdered(s + [m])
  {
  }

  lemma {:induction false} SortShape(leq: IdOrder, s: Store)
    requires TotalOrder(leq) && DistinctIds(s)
    ensures DistinctIds(Sort(leq, s)) && TimeOrdered(Sort(leq, s)) && Ids(Sort(leq, s)) == Ids(s)
  {
    hide Sort, Canonical, View, Ids, TotalOrder, DistinctIds, TimeOrdered;
    SortCanonical(leq, s);
    ViewKeys(s);
    ViewKeys(Sort(leq, s));
    CanonicalIsOrdered(leq, Sort(leq, s));
  }

  lemma AddShape(leq: IdOrder, s: Store, m: Message)
    requires TotalOrder(leq) && DistinctIds(s) && TimeOrdered(s)
    ensures DistinctIds(Add(leq, s, m)) && TimeOrdered(Add(leq, s, m))
    ensures Ids(Add(leq, s, m)) == Ids(s) + {m.core.id}
  {
    hide Sort, Ids, TotalOrder, DistinctIds, TimeOrdered;
    if m.core.id !in Ids(s) {
      AppendShape(s, m);
      SortShape(leq, s + [m]);
      if s == [] || s[|s| - 1].core.timestamp <= m.core.timestamp {
        AppendInTime(s, m);
      }
    }
  }

  /** Live messages and merges in any mix: times never decrease, ids never repeat, nothing is lost. */
  lemma {:induction false} MixedOrder(leq: IdOrder, es: seq<ChatEvent>)
    requires TotalOrder(leq)
    ensures var s := ReactAll(leq, es); TimeOrdered(s) && DistinctIds(s) && Ids(s) == AllEventIds(es)
  {
    if es != [] {
      var front, last := es[..|es| - 1], es[|es| - 1];
      var s := ReactAll(leq, front);
      MixedOrder(leq, front);
      match last
      case Live(m) => AddShape(leq, s, m);
      case History(batch) =>
        MergeOntoDistinct(leq, s, batch);
        ViewKeys(s);
        ViewKeys(batch);
        ViewKeys(Merge(leq, s, batch));
        if NewOnes(Ids(s), batch) != [] {
          CanonicalIsOrdered(leq, Merge(leq, s, batch));
        }
    }
  }

  /** After any mix, a merge that brings something new restores the canonical order. */
  lemma {:induction false} MergeRestoresOrder(leq: IdOrder, es: seq<ChatEvent>, batch: Store)
    requires TotalOrder(leq) && !(Ids(batch) <= AllEventIds(es))
    ensures Canonical(leq, Merge(leq, ReactAll(leq, es), batch))
  {
    hide ReactAll, Merge, Canonical, View, NewOnes, TotalOrder;
    MixedOrder(leq, es);
    var s := ReactAll(leq, es);
    NewOnesShape(Ids(s), batch);
    var id :| id in Ids(batch) && id !in Ids(s);
    EmptyIds(NewOnes(Ids(s), batch));
    MergeOntoDistinct(leq, s, batch);
  }

  class ChatStore {
    const leq: IdOrder
    var messages: Store

    constructor (leq: IdOrder)
      ensures this.leq == leq && messages == []
    {
      this.leq := leq;
      messages := [];
    }

    method MergeHistory(incoming: Store)
      modifies this
      ensures messages == Merge(leq, old(messages), incoming)
    {
      var existing := set m | m in messages :: m.core.id;
      var novel: Store := [];
      for i := 0 to |incoming|
        invariant novel + NewOnes(existing, incoming[i..]) == NewOnes(Ids(messages), incoming)
      {
        var msg := incoming[i];
        assert incoming[i..][0] == msg && incoming[i..][1..] == incoming[i + 1..];
        if msg.core.id !in existing {
          assert novel + NewOnes(existing, incoming[i..])
              == (novel + [msg]) + NewOnes(existing + {msg.core.id}, incoming[i + 1..]);
          existing := existing + {msg.core.id};
          novel := novel + [msg];
        }
      }
      assert incoming[|incoming|..] == [] && novel + [] == novel;
      if |novel| == 0 {
        return;
      }
      messages := Sort(leq, messages + novel);
    }

    method AddMessage(m: Message)
      modifies this
      ensures messages == Add(leq, old(messages), m)
    {
      if exists x :: x in messages && x.core.id == m.core.id {
        return;
      }
      var updated := messages + [m];
      if |messages| > 0 && m.core.timestamp < messages[|messages| - 1].core.timestamp {
        updated := Sort(leq, updated);
      }
      messages := updated;
    }
  }
}
