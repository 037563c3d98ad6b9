/** The manager that owns every raw CMS resource and destroys them in dependency order. */
module ResourceLifecycleManagers {
  import opened Runtime

  datatype Lists = Lists(
    connections: seq<Id>,
    sessions: seq<Id>,
    destinations: seq<Id>,
    producers: seq<Id>,
    consumers: seq<Id>)

  const NO_RESOURCES := Lists([], [], [], [], [])

  /** Everything the manager owns, in the order in which it is deleted. */
  function DeletionOrder(l: Lists): seq<Id> {
    l.producers + l.consumers + l.destinations + l.sessions + l.connections
  }

  /** The position of a resource's list in the deletion order. */
  function Rank(r: Resource): nat {
    match r
    case Producer(_, _, _) => 0
    case Consumer(_, _, _, _, _) => 1
    case ManagedDestination(_, _) => 2
    case Session(_, _) => 3
    case Connection => 4
    case _ => 5
  }

  /** A list that holds exactly the live resources of rank `r`, each once. */
  ghost predicate Holds(s: seq<Id>, w: World, r: nat) {
    && Distinct(s)
    && forall id :: id in s <==> id in w.live && id < |w.heap| && Rank(w.heap[id]) == r
  }

  /** The lists hold exactly the live managed resources, each once and by kind. */
  ghost predicate ListsExact(l: Lists, w: World) {
    && Holds(l.producers, w, 0)
    && Holds(l.consumers, w, 1)
    && Holds(l.destinations, w, 2)
    && Holds(l.sessions, w, 3)
    && Holds(l.connections, w, 4)
  }

  ghost predicate NoWrappers(w: World) {
    forall id :: id in w.live && id < |w.heap| ==> !Wrapper(w.heap[id])
  }

  /** The lists after one more resource is put under management. */
  function AddTo(l: Lists, r: Resource, id: Id): Lists {
    match r
    case Connection => l.(connections := l.connections + [id])
    case Session(_, _) => l.(sessions := l.sessions + [id])
    case ManagedDestination(_, _) => l.(destinations := l.destinations + [id])
    case Producer(_, _, _) => l.(producers := l.producers + [id])
    case Consumer(_, _, _, _, _) => l.(consumers := l.consumers + [id])
    case _ => l
  }

  lemma HoldsAlloc(s: seq<Id>, w: World, r: Resource, rank: nat)
    requires Sound(w) && Holds(s, w, rank)
    ensures Holds(if Rank(r) == rank then s + [|w.heap|] else s, Alloc(w, r), rank)
  {
    assert |w.heap| !in s;
  }

  lemma ListsAlloc(l: Lists, w: World, r: Resource)
    requires Sound(w) && ListsExact(l, w)
    ensures ListsExact(AddTo(l, r, |w.heap|), Alloc(w, r))
  {
    HoldsAlloc(l.producers, w, r, 0);
    HoldsAlloc(l.consumers, w, r, 1);
    HoldsAlloc(l.destinations, w, r, 2);
    HoldsAlloc(l.sessions, w, r, 3);
    HoldsAlloc(l.connections, w, r, 4);
  }

  function SetOf(s: seq<Id>): set<Id> {
    set id | id in s
  }

  /** Deleting a list of resources front to back. */
  function FreeAll(w: World, s: seq<Id>): World {
    w.(live := w.live - SetOf(s), freed := w.freed + s, caches := w.caches - SetOf(s))
  }

  lemma FreeAllSnoc(w: World, s: seq<Id>, i: nat)
    requires i < |s|
    ensures FreeAll(w, s[..i + 1]) == Free(FreeAll(w, s[..i]), s[i])
  {
    assert s[..i + 1] == s[..i] + [s[i]];
    assert SetOf(s[..i + 1]) == SetOf(s[..i]) + {s[i]};
    assert w.freed + (s[..i] + [s[i]]) == (w.freed + s[..i]) + [s[i]];
    assert w.live - SetOf(s[..i + 1]) == (w.live - SetOf(s[..i])) - {s[i]};
    assert w.caches - SetOf(s[..i + 1]) == (w.caches - SetOf(s[..i])) - {s[i]};
  }

  lemma FreeAllAppend(w: World, s: seq<Id>, t: seq<Id>)
    ensures FreeAll(FreeAll(w, s), t) == FreeAll(w, s + t)
  {
    assert SetOf(s + t) == SetOf(s) + SetOf(t);
    assert w.live - SetOf(s + t) == (w.live - SetOf(s)) - SetOf(t);
    assert w.caches - SetOf(s + t) == (w.caches - SetOf(s)) - SetOf(t);
    assert w.freed + (s + t) == (w.freed + s) + t;
  }

  /** A list of live resources on which nothing alive depends. */
  ghost predicate Deletable(w: World, s: seq<Id>) {
    && Distinct(s)
    && (forall id :: id in s ==> id in w.live && id < |w.heap|)
    && (forall id, x :: id in s && x in w.live && x < |w.heap| ==> id !in Parents(w.heap[x]))
    && AllClosed(w)
  }

  lemma NextDeletable(w: World, s: seq<Id>, i: nat)
    requires Deletable(w, s) && i < |s|
    ensures MayDelete(FreeAll(w, s[..i]), s[i])
  {
    assert s[i] in s;
    assert s[i] !in SetOf(s[..i]) by {
      forall j | 0 <= j < i ensures s[..i][j] != s[i] { assert s[j] != s[i]; }
    }
  }

  method DeleteAll(rt: CmsRuntime, s: seq<Id>)
    requires Sound(rt.w) && Deletable(rt.w, s)
    modifies rt
    ensures Sound(rt.w) && rt.w == FreeAll(old(rt.w), s)
  {
    ghost var w0 := rt.w;
    assert w0.live - SetOf([]) == w0.live && w0.caches - SetOf([]) == w0.caches;
    for i := 0 to |s|
      invariant Sound(rt.w) && rt.w == FreeAll(w0, s[..i])
    {
      FreeAllSnoc(w0, s, i);
      NextDeletable(w0, s, i);
      rt.Delete(s[i]);
    }
    assert s[..|s|] == s;
  }

  lemma ParentsRankHigher(heap: seq<Resource>, x: Id)
    requires x < |heap| && Typed(heap, x) && !Wrapper(heap[x])
    ensures forall p :: p in Parents(heap[x]) ==> p < |heap| && Rank(heap[p]) > Rank(heap[x])
  {
  }

  ghost predicate RanksFrom(w: World, r: nat) {
    forall x :: x in w.live && x < |w.heap| ==> !Wrapper(w.heap[x]) && Rank(w.heap[x]) >= r
  }

  /** When the lists of lower rank are gone nothing depends on the list of rank `r`. */
  lemma RankDeletable(w: World, next: seq<Id>, r: nat)
    requires Sound(w) && AllClosed(w) && RanksFrom(w, r) && Distinct(next)
    requires forall id :: id in next ==> id in w.live && Rank(w.heap[id]) == r
    ensures Deletable(w, next)
  {
    forall id, x | id in next && x in w.live && x < |w.heap| ensures id !in Parents(w.heap[x]) {
      assert Typed(w.heap, x);
      ParentsRankHigher(w.heap, x);
    }
  }

  function ListOf(l: Lists, r: nat): seq<Id> {
    match r
    case 0 => l.producers
    case 1 => l.consumers
    case 2 => l.destinations
    case 3 => l.sessions
    case 4 => l.connections
    case _ => []
  }

  /** The lists that come before rank `r` in the deletion order. */
  function Before(l: Lists, r: nat): seq<Id> {
    if r == 0 then [] else Before(l, r - 1) + ListOf(l, r - 1)
  }

  lemma {:induction false} BeforeExact(l: Lists, w: World, r: nat)
    requires ListsExact(l, w) && r <= 4
    ensures forall id :: id in Before(l, r) <==> id in w.live && id < |w.heap| && Rank(w.heap[id]) < r
  {
    if r > 0 {
      BeforeExact(l, w, r - 1);
      assert Holds(ListOf(l, r - 1), w, r - 1);
    }
  }

  lemma StartStages(l: Lists, w: World)
    ensures FreeAll(w, Before(l, 0)) == w
  {
    assert w.live - SetOf([]) == w.live && w.caches - SetOf([]) == w.caches;
  }

  lemma AllStages(l: Lists)
    ensures Before(l, 5) == DeletionOrder(l)
  {
    assert Before(l, 1) == l.producers;
    assert Before(l, 2) == l.producers + l.consumers;
    assert Before(l, 3) == l.producers + l.consumers + l.destinations;
    assert Before(l, 4) == l.producers + l.consumers + l.destinations + l.sessions;
  }

  lemma StageDeletable(l: Lists, w0: World, r: nat)
    requires Sound(w0) && ListsExact(l, w0) && NoWrappers(w0) && AllClosed(w0) && r <= 4
    requires Sound(FreeAll(w0, Before(l, r)))
    ensures Deletable(FreeAll(w0, Before(l, r)), ListOf(l, r))
  {
    BeforeExact(l, w0, r);
    assert Holds(ListOf(l, r), w0, r);
    RankDeletable(FreeAll(w0, Before(l, r)), ListOf(l, r), r);
  }

  class ResourceLifecycleManager {
    var connections: seq<Id>
    var sessions: seq<Id>
    var destinations: seq<Id>
    var producers: seq<Id>
    var consumers: seq<Id>

    ghost function Contents(): Lists
      reads this
    {
      Lists(connections, sessions, destinations, producers, consumers)
    }

    constructor ()
      ensures Contents() == NO_RESOURCES
    {
      connections, sessions, destinations, producers, consumers := [], [], [], [], [];
    }

    method ReleaseAll()
      modifies this
      ensures Contents() == NO_RESOURCES
    {
      connections, sessions, destinations, producers, consumers := [], [], [], [], [];
    }

    method AddConnection(id: Id)
      modifies this
      ensures Contents() == old(Contents()).(connections := old(connections) + [id])
    {
      connections := connections + [id];
    }

    method AddSession(id: Id)
      modifies this
      ensures Contents() == old(Contents()).(sessions := old(sessions) + [id])
    {
      sessions := sessions + [id];
    }

    method AddDestination(id: Id)
      modifies this
      ensures Contents() == old(Contents()).(destinations := old(destinations) + [id])
    {
      destinations := destinations + [id];
    }

    method AddMessageProducer(id: Id)
      modifies this
      ensures Contents() == old(Contents()).(producers := old(producers) + [id])
    {
      producers := producers + [id];
    }

    method AddMessageConsumer(id: Id)
      modifies this
      ensures Contents() == old(Contents()).(consumers := old(consumers) + [id])
    {
      consumers := consumers + [id];
    }

    /** Closes every connection, then deletes producers, consumers, destinations, sessions and
        connections, each list front to back, and forgets them all. */
    method Destroy(rt: CmsRuntime)
      requires Sound(rt.w) && ListsExact(Contents(), rt.w) && NoWrappers(rt.w)
      modifies this, rt
      ensures Sound(rt.w) && Contents() == NO_RESOURCES
      ensures rt.w == FreeAll(old(rt.w).(closed := old(rt.w).closed + SetOf(old(connections))),
                              DeletionOrder(old(Contents())))
      ensures rt.w.freed == old(rt.w).freed +
                            (old(producers) + old(consumers) + old(destinations) + old(sessions) + old(connections))
    {
      CloseConnections(rt);
      ghost var w0 := rt.w;

      ghost var l := Contents();
      StartStages(l, w0);
      DeleteStage(rt, producers, l, w0, 0);
      DeleteStage(rt, consumers, l, w0, 1);
      DeleteStage(rt, destinations, l, w0, 2);
      DeleteStage(rt, sessions, l, w0, 3);
      DeleteStage(rt, connections, l, w0, 4);
      AllStages(l);
      ReleaseAll();
    }

    /** One of the five deletion loops. */
    static method DeleteStage(rt: CmsRuntime, next: seq<Id>, ghost l: Lists, ghost w0: World, ghost r: nat)
      requires Sound(w0) && ListsExact(l, w0) && NoWrappers(w0) && AllClosed(w0)
      requires r <= 4 && next == ListOf(l, r)
      requires Sound(rt.w) && rt.w == FreeAll(w0, Before(l, r))
      modifies rt
      ensures Sound(rt.w) && rt.w == FreeAll(w0, Before(l, r + 1))
    {
      StageDeletable(l, w0, r);
      DeleteAll(rt, next);
      FreeAllAppend(w0, Before(l, r), next);
    }

    method CloseConnections(rt: CmsRuntime)
      requires Sound(rt.w) && ListsExact(Contents(), rt.w)
      modifies rt
      ensures Sound(rt.w) && AllClosed(rt.w)
      ensures rt.w == old(rt.w).(closed := old(rt.w).closed + SetOf(connections))
    {
      ghost var w0 := rt.w;
      for i := 0 to |connections|
        invariant Sound(rt.w) && rt.w == w0.(closed := w0.closed + SetOf(connections[..i]))
      {
        assert connections[..i + 1] == connections[..i] + [connections[i]];
        assert connections[i] in connections;
        rt.Close(connections[i]);
      }
      assert connections[..|connections|] == connections;
    }
  }
}
