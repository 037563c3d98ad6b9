/** What the template's invariant means for its resources: each has one owner, nothing dangles. */
module TemplateOwnership {
  import opened Wrappers
  import opened Runtime
  import opened ResourceLifecycleManagers
  import opened PooledSessions
  import opened SessionPools
  import opened DestinationResolvers
  import opened Commands
  import opened TemplateState

  function Occurrences(s: seq<Id>, id: Id): nat { multiset(s)[id] }

  lemma {:induction false} DistinctOnce(s: seq<Id>, id: Id)
    requires Distinct(s)
    ensures Occurrences(s, id) == if id in s then 1 else 0
  {
    if s != [] {
      var front, last := s[..|s| - 1], s[|s| - 1];
      DistinctOnce(front, id);
      assert s == front + [last];
      assert last !in front;
    }
  }

  lemma HoldsOnce(s: seq<Id>, w: World, r: nat, id: Id)
    requires Holds(s, w, r)
    ensures Occurrences(s, id) == if id in w.live && id < |w.heap| && Rank(w.heap[id]) == r then 1 else 0
  {
    DistinctOnce(s, id);
  }

  /** A live managed resource stands in the manager's lists at exactly one place. */
  lemma ListedOnce(l: Lists, w: World, id: Id)
    requires ListsExact(l, w)
    ensures Occurrences(DeletionOrder(l), id) == if id in w.live && id < |w.heap| && Managed(w.heap[id]) then 1 else 0
  {
    HoldsOnce(l.producers, w, 0, id);
    HoldsOnce(l.consumers, w, 1, id);
    HoldsOnce(l.destinations, w, 2, id);
    HoldsOnce(l.sessions, w, 3, id);
    HoldsOnce(l.connections, w, 4, id);
  }

  /** How many cache entries hold a wrapper, as none or just the one under its own key. */
  ghost predicate CachedOnce(w: World, c: Id, s: Id, k: string, producers: bool) {
    && s in w.caches
    && k in (if producers then w.caches[s].producers else w.caches[s].consumers)
    && (forall s', k' :: s' in w.caches && k' in w.caches[s'].producers ==>
          (w.caches[s'].producers[k'] == c <==> (producers && s' == s && k' == k)))
    && (forall s', k' :: s' in w.caches && k' in w.caches[s'].consumers ==>
          (w.caches[s'].consumers[k'] == c <==> (!producers && s' == s && k' == k)))
  }

  /** A live resource has exactly one owner: a manager's list, a pool, a cache entry, a memo
      entry, or the client. */
  ghost predicate OwnedOnce(t: Template, w: World, id: Id)
    requires id < |w.heap|
  {
    match w.heap[id]
    case PooledSession(_, m) =>
      m as int < |t.pools| && t.pools[m].Some? && Occurrences(t.pools[m].value.pool.sessions, id) == 1
    case CachedProducer(_, s, k) => CachedOnce(w, id, s, k, true)
    case CachedConsumer(_, s, k) => CachedOnce(w, id, s, k, false)
    case ResolverObject(s) => s in t.memo && forall s' :: s' in t.memo ==> (t.memo[s'].self == id <==> s' == s)
    case Message => id in w.delivered
    case _ => Occurrences(DeletionOrder(t.lists), id) == 1
  }

  lemma WrapperOnce(t: Template, w: World, id: Id)
    requires CachesExact(w) && id in w.live && id < |w.heap|
    requires w.heap[id].CachedProducer? || w.heap[id].CachedConsumer?
    ensures CachedOnce(w, id, w.heap[id].owner, w.heap[id].key, w.heap[id].CachedProducer?)
  {
    assert Owned(w, id);
    forall s, k | s in w.caches && k in w.caches[s].producers
      ensures w.caches[s].producers[k] == id <==>
              (w.heap[id].CachedProducer? && s == w.heap[id].owner && k == w.heap[id].key)
    {
      assert ProducerEntry(w, s, k);
    }
    forall s, k | s in w.caches && k in w.caches[s].consumers
      ensures w.caches[s].consumers[k] == id <==>
              (!w.heap[id].CachedProducer? && s == w.heap[id].owner && k == w.heap[id].key)
    {
      assert ConsumerEntry(w, s, k);
    }
  }

  lemma ResolverOnce(t: Template, w: World, id: Id)
    requires ResolversExact(t.memo, w) && id in w.live && id < |w.heap| && w.heap[id].ResolverObject?
    ensures OwnedOnce(t, w, id)
  {
    forall s | s in t.memo ensures t.memo[s].self == id <==> s == w.heap[id].pooled {
      assert IsResolver(w, t.memo[s].self, s);
    }
  }

  lemma PooledOnce(t: Template, w: World, id: Id)
    requires PoolsOwn(t.pools, w) && LivePooled(w, id)
    ensures OwnedOnce(t, w, id)
  {
    var m := w.heap[id].mode as nat;
    assert t.pools[m].Some?;
    assert PoolOwns(t.pools[m].value, m, w);
    DistinctOnce(t.pools[m].value.pool.sessions, id);
  }

  /** Conservation: everything ever created either lives and has exactly one owner, or was
      freed exactly once. */
  lemma EverythingAccountedFor(t: Template, w: World, id: Id)
    requires Inv(t, w) && id < |w.heap|
    ensures Occurrences(w.freed, id) == if id in w.live then 0 else 1
    ensures id in w.live ==> OwnedOnce(t, w, id)
  {
    DistinctOnce(w.freed, id);
    if id in w.live {
      var r := w.heap[id];
      if Managed(r) {
        ListedOnce(t.lists, w, id);
      } else if r.PooledSession? {
        PooledOnce(t, w, id);
      } else if r.CachedProducer? || r.CachedConsumer? {
        WrapperOnce(t, w, id);
      } else if r.ResolverObject? {
        ResolverOnce(t, w, id);
      }
    }
  }

  // ---- Nothing dangles ----

  /** Every pointer that the template, its pools, its caches and its resolver keep between
      operations leads to a live object of the right kind. */
  ghost predicate NothingDangles(t: Template, w: World)
    requires |t.pools| == NUM_SESSION_POOLS
  {
    && (t.connection.Some? ==> LiveConnection(w, t.connection.value))
    && (forall m: PoolMode :: t.pools[m].Some? ==> LiveConnection(w, t.pools[m].value.connection))
    && (forall m: PoolMode, s :: t.pools[m].Some? && s in t.pools[m].value.pool.sessions ==> LivePooled(w, s))
    && (forall m: PoolMode, s :: t.pools[m].Some? && s in t.pools[m].value.pool.available ==> LivePooled(w, s))
    && (forall s, k :: s in w.caches && k in w.caches[s].producers ==> LiveProducer(w, w.caches[s].producers[k]))
    && (forall s, k :: s in w.caches && k in w.caches[s].consumers ==> LiveConsumer(w, w.caches[s].consumers[k]))
    && (forall s, b, n :: s in t.memo && n in t.memo[s].Names(b) ==> LiveDestination(w, t.memo[s].Names(b)[n]))
    && (t.defaultDestination.Some? ==> LiveRef(w, t.defaultDestination.value))
  }

  /** A wrapper whose raw producer lives, on a session and for a destination that live. */
  ghost predicate LiveProducer(w: World, c: Id) {
    && c in w.live && c < |w.heap| && w.heap[c].CachedProducer?
    && var p := w.heap[c].rawProducer;
    && p in w.live && p < |w.heap| && w.heap[p].Producer?
    && w.heap[p].session in w.live && (w.heap[p].via.Some? ==> w.heap[p].via.value in w.live)
  }

  ghost predicate LiveConsumer(w: World, c: Id) {
    && c in w.live && c < |w.heap| && w.heap[c].CachedConsumer?
    && var p := w.heap[c].rawConsumer;
    && p in w.live && p < |w.heap| && w.heap[p].Consumer?
    && w.heap[p].session in w.live && (w.heap[p].via.Some? ==> w.heap[p].via.value in w.live)
  }

  ghost predicate LiveDestination(w: World, d: Id) {
    d in w.live && d < |w.heap| && w.heap[d].ManagedDestination?
  }

  lemma ProducersDoNotDangle(w: World)
    requires Sound(w) && ProducersSound(w)
    ensures forall s, k :: s in w.caches && k in w.caches[s].producers ==> LiveProducer(w, w.caches[s].producers[k])
  {
    forall s, k | s in w.caches && k in w.caches[s].producers ensures LiveProducer(w, w.caches[s].producers[k]) {
      assert ProducerEntry(w, s, k);
      var c := w.caches[s].producers[k];
      assert w.heap[c].rawProducer in Parents(w.heap[c]);
    }
  }

  lemma ConsumersDoNotDangle(w: World)
    requires Sound(w) && ConsumersSound(w)
    ensures forall s, k :: s in w.caches && k in w.caches[s].consumers ==> LiveConsumer(w, w.caches[s].consumers[k])
  {
    forall s, k | s in w.caches && k in w.caches[s].consumers ensures LiveConsumer(w, w.caches[s].consumers[k]) {
      assert ConsumerEntry(w, s, k);
      var c := w.caches[s].consumers[k];
      assert w.heap[c].rawConsumer in Parents(w.heap[c]);
    }
  }

  lemma MemoDoesNotDangle(memo: Memo, w: World)
    requires NamesSound(memo, w)
    ensures forall s, b, n :: s in memo && n in memo[s].Names(b) ==> LiveDestination(w, memo[s].Names(b)[n])
  {
    forall s, b, n | s in memo && n in memo[s].Names(b) ensures LiveDestination(w, memo[s].Names(b)[n]) {
      assert NameEntry(w, memo[s].Names(b)[n], b, n);
    }
  }

  lemma PoolsDoNotDangle(t: Template, w: World, m: PoolMode)
    requires Inv(t, w) && t.pools[m].Some?
    ensures LiveConnection(w, t.pools[m].value.connection)
    ensures forall s :: s in t.pools[m].value.pool.sessions ==> LivePooled(w, s)
    ensures forall s :: s in t.pools[m].value.pool.available ==> LivePooled(w, s)
  {
    PoolConnectionLive(t, w, m);
    assert PoolOwns(t.pools[m].value, m as nat, w);
  }

  lemma NoPointerDangles(t: Template, w: World)
    requires Inv(t, w)
    ensures NothingDangles(t, w)
  {
    ProducersDoNotDangle(w);
    ConsumersDoNotDangle(w);
    MemoDoesNotDangle(t.memo, w);
    forall m: PoolMode | t.pools[m].Some?
      ensures LiveConnection(w, t.pools[m].value.connection)
      ensures forall s :: s in t.pools[m].value.pool.sessions ==> LivePooled(w, s)
      ensures forall s :: s in t.pools[m].value.pool.available ==> LivePooled(w, s)
    {
      PoolsDoNotDangle(t, w, m);
    }
    if t.connection.Some? {
      assert t.connection.value in t.lists.connections;
    }
  }

  // ---- The machine's shape ----

  /** The connection is set exactly when all four pools are; pools refer to it; the resolver
      remembers live sessions only; and a template that is not initialised has nothing at all,
      one that is has given its manager to the resolver. */
  lemma MachineShape(t: Template, w: World)
    requires Inv(t, w)
    ensures forall m: PoolMode :: t.connection.Some? <==> t.pools[m].Some?
    ensures forall m: PoolMode :: t.pools[m].Some? ==> t.connection == Some(t.pools[m].value.connection)
    ensures forall s :: s in t.memo ==> LivePooled(w, s)
    ensures t.initialized ==> t.adopted
    ensures !t.initialized ==> t.connection.None? && t.pools == NO_POOLS && t.memo == map[] && t.lists == NO_RESOURCES
  {
    assert forall m: nat :: m < NUM_SESSION_POOLS ==> (t.pools[m].Some? <==> t.connection.Some?);
    if t.connection.None? {
      NothingWithoutConnection(t, w);
    }
  }

  lemma NothingWithoutConnection(t: Template, w: World)
    requires Inv(t, w) && t.connection.None?
    ensures t.pools == NO_POOLS && t.lists == NO_RESOURCES
  {
    NoConnectionNoSessions(t, w);
    forall id | id in w.live && id < |w.heap| ensures !w.heap[id].Session? {
      SessionHasConnection(w, id);
    }
    NoSessionsNoLists(t.lists, w);
  }

  lemma SessionHasConnection(w: World, id: Id)
    requires Sound(w) && id in w.live && id < |w.heap|
    ensures w.heap[id].Session? ==> LiveConnection(w, w.heap[id].connection)
  {
    assert Typed(w.heap, id);
  }

  lemma SomeSessionBelow(w: World, id: Id)
    requires Sound(w) && id in w.live && id < |w.heap|
    ensures Rank(w.heap[id]) < 3 ==> exists s: Id :: s in w.live && s < |w.heap| && w.heap[s].Session?
  {
    assert Typed(w.heap, id);
  }

  lemma FirstMember(s: seq<Id>)
    ensures s != [] ==> exists id: Id :: id in s
  {
    if s != [] { assert s[0] in s; }
  }

  lemma NoSessionsNoLists(l: Lists, w: World)
    requires Sound(w) && ListsExact(l, w) && l.connections == []
    requires forall id :: id in w.live && id < |w.heap| ==> !w.heap[id].Session?
    ensures l == NO_RESOURCES
  {
    forall id | id in w.live && id < |w.heap| ensures Rank(w.heap[id]) >= 4 {
      SomeSessionBelow(w, id);
    }
    FirstMember(l.sessions);
    FirstMember(l.destinations);
    FirstMember(l.producers);
    FirstMember(l.consumers);
  }

  /** Unless the client supplied the default destination, it is what the current default name
      denotes in the current domain, and it is alive. */
  lemma DefaultIsCurrent(t: Template, w: World)
    requires Inv(t, w) && View(t).client.None? && t.defaultDestination.Some?
    ensures Resolve(DefaultTarget, View(t)) == Some(t.defaultDestination.value.dest)
    ensures t.defaultDestination.value.via.Some? && LiveRef(w, t.defaultDestination.value)
  {
  }

  // ---- Dependencies ----

  ghost predicate LiveSession(w: World, s: Id) {
    s in w.live && s < |w.heap| && w.heap[s].Session?
  }

  ghost predicate LiveDestinationOrNone(w: World, via: Option<Id>) {
    via.Some? ==> LiveDestination(w, via.value)
  }

  /** What lives as long as a resource lives: a session's connection, the session and the resolved
      destination of a producer or consumer, the raw object and the owner of a wrapper. */
  lemma DependenciesSpelledOut(w: World, id: Id)
    requires Sound(w) && id in w.live
    ensures match w.heap[id]
            case Session(c, _) => LiveConnection(w, c)
            case ManagedDestination(s, _) => LiveSession(w, s)
            case Producer(s, _, via) => LiveSession(w, s) && LiveDestinationOrNone(w, via)
            case Consumer(s, _, _, _, via) => LiveSession(w, s) && LiveDestinationOrNone(w, via)
            case PooledSession(raw, m) => LiveSession(w, raw) && w.heap[raw].mode == m
            case CachedProducer(p, s, _) => p in w.live && w.heap[p].Producer? && LivePooled(w, s)
            case CachedConsumer(c, s, _) => c in w.live && w.heap[c].Consumer? && LivePooled(w, s)
            case _ => true
  {
    assert Typed(w.heap, id);
    assert forall p :: p in Parents(w.heap[id]) ==> p in w.live;
  }

  /** And what was freed later did not need what was freed before. */
  lemma FreedInOrder(w: World, i: nat, j: nat)
    requires Sound(w) && i < j < |w.freed|
    ensures var x, y := w.freed[i], w.freed[j];
            && y < |w.heap|
            && match w.heap[y]
               case Session(c, _) => x != c
               case ManagedDestination(s, _) => x != s
               case Producer(s, _, via) => x != s && via != Some(x)
               case Consumer(s, _, _, _, via) => x != s && via != Some(x)
               case PooledSession(raw, _) => x != raw
               case CachedProducer(p, s, _) => x != p && x != s
               case CachedConsumer(c, s, _) => x != c && x != s
               case _ => true
  {
    assert w.freed[j] in w.freed;
  }
}
