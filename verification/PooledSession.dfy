/** PooledSession: a leased wrapper around a raw session that caches producers and consumers
    under string keys. Objects are rows of the runtime's table, indexed by their pointer. */
module PooledSessions {
  import opened Wrappers
  import opened Destinations
  import opened CacheKeys
  import opened Runtime
  import opened ResourceLifecycleManagers

  /** A destination pointer: the address it denotes, and the managed object (if the resolver
      created it) or none (if the client owns the object). */
  datatype DestinationRef = DestinationRef(dest: Destination, via: Option<Id>)

  ghost predicate LiveRef(w: World, d: DestinationRef) {
    d.via.Some? ==>
      d.via.value in w.live && d.via.value < |w.heap| &&
      w.heap[d.via.value].ManagedDestination? && w.heap[d.via.value].dest == d.dest
  }

  ghost predicate LivePooled(w: World, s: Id) {
    s in w.live && s < |w.heap| && w.heap[s].PooledSession?
  }

  /** The cached producer under key `k` is alive, belongs to this session's raw session, and
      serves a destination that has this key. */
  ghost predicate ProducerEntry(w: World, s: Id, k: string)
    requires s in w.caches && k in w.caches[s].producers
  {
    var c := w.caches[s].producers[k];
    && LivePooled(w, s)
    && c in w.live && c < |w.heap| && w.heap[c].CachedProducer?
    && w.heap[c].owner == s && w.heap[c].key == k
    && var p := w.heap[c].rawProducer;
    && p < |w.heap| && w.heap[p].Producer?
    && w.heap[p].session == w.heap[s].raw && UniqueDestName(w.heap[p].dest) == k
  }

  ghost predicate ConsumerEntry(w: World, s: Id, k: string)
    requires s in w.caches && k in w.caches[s].consumers
  {
    var c := w.caches[s].consumers[k];
    && LivePooled(w, s)
    && c in w.live && c < |w.heap| && w.heap[c].CachedConsumer?
    && w.heap[c].owner == s && w.heap[c].key == k
    && var p := w.heap[c].rawConsumer;
    && p < |w.heap| && w.heap[p].Consumer?
    && w.heap[p].session == w.heap[s].raw
    && ConsumerKey(w.heap[p].dest, w.heap[p].selector, w.heap[p].noLocal) == k
  }

  ghost predicate RowsExact(w: World) {
    forall s :: s in w.caches <==> LivePooled(w, s)
  }

  ghost predicate ProducersSound(w: World) {
    forall s, k :: s in w.caches && k in w.caches[s].producers ==> ProducerEntry(w, s, k)
  }

  ghost predicate ConsumersSound(w: World) {
    forall s, k :: s in w.caches && k in w.caches[s].consumers ==> ConsumerEntry(w, s, k)
  }

  /** The cache entry that owns a wrapper. */
  ghost predicate Owned(w: World, c: Id)
    requires c < |w.heap|
  {
    match w.heap[c]
    case CachedProducer(_, s, k) =>
      s in w.caches && k in w.caches[s].producers && w.caches[s].producers[k] == c
    case CachedConsumer(_, s, k) =>
      s in w.caches && k in w.caches[s].consumers && w.caches[s].consumers[k] == c
    case _ => true
  }

  ghost predicate WrappersOwned(w: World) {
    forall c :: c in w.live && c < |w.heap| ==> Owned(w, c)
  }

  ghost predicate RawUnshared(w: World) {
    forall c, d | c in w.live && d in w.live && c < |w.heap| && d < |w.heap| ::
      w.heap[c].CachedProducer? && w.heap[d].CachedProducer? && c != d ==>
      w.heap[c].rawProducer != w.heap[d].rawProducer
  }

  /** Every cache row belongs to a live pooled session, every entry is sound, and every live
      wrapper is reachable from exactly the one entry that owns it. */
  ghost predicate CachesExact(w: World) {
    RowsExact(w) && ProducersSound(w) && ConsumersSound(w) && WrappersOwned(w) && RawUnshared(w)
  }

  lemma AllocKeepsEntries(w: World, r: Resource)
    requires Sound(w) && ProducersSound(w) && ConsumersSound(w)
    ensures ProducersSound(Alloc(w, r)) && ConsumersSound(Alloc(w, r))
  {
    var w' := Alloc(w, r);
    forall s, k | s in w'.caches && k in w'.caches[s].producers ensures ProducerEntry(w', s, k) {
      assert ProducerEntry(w, s, k);
    }
    forall s, k | s in w'.caches && k in w'.caches[s].consumers ensures ConsumerEntry(w', s, k) {
      assert ConsumerEntry(w, s, k);
    }
  }

  /** Allocating anything but a wrapper leaves the caches exact. */
  lemma AllocKeepsCaches(w: World, r: Resource)
    requires Sound(w) && CachesExact(w) && !Wrapper(r)
    ensures CachesExact(Alloc(w, r))
  {
    var w' := Alloc(w, r);
    AllocKeepsEntries(w, r);
    forall s ensures s in w'.caches <==> LivePooled(w', s) {
      assert LivePooled(w', s) <==> LivePooled(w, s);
    }
    forall c | c in w'.live && c < |w'.heap| ensures Owned(w', c) {
      if c < |w.heap| { assert Owned(w, c); }
    }
  }

  /** Putting a new wrapper under the key it carries. */
  function Cached(w: World, r: Resource): World
    requires (r.CachedProducer? || r.CachedConsumer?) && r.owner in w.caches
  {
    var row := w.caches[r.owner];
    var row' := if r.CachedProducer?
      then row.(producers := row.producers[r.key := |w.heap|])
      else row.(consumers := row.consumers[r.key := |w.heap|]);
    Alloc(w, r).(caches := w.caches[r.owner := row'])
  }

  ghost predicate MayCache(w: World, r: Resource) {
    && (r.CachedProducer? || r.CachedConsumer?) && r.owner in w.caches
    && (r.CachedProducer? ==>
          && r.rawProducer < |w.heap| && w.heap[r.rawProducer].Producer?
          && LivePooled(w, r.owner)
          && w.heap[r.rawProducer].session == w.heap[r.owner].raw
          && UniqueDestName(w.heap[r.rawProducer].dest) == r.key
          && r.key !in w.caches[r.owner].producers
          && forall c :: c in w.live && c < |w.heap| && w.heap[c].CachedProducer? ==>
               w.heap[c].rawProducer != r.rawProducer)
    && (r.CachedConsumer? ==>
          && r.rawConsumer < |w.heap| && w.heap[r.rawConsumer].Consumer?
          && LivePooled(w, r.owner)
          && w.heap[r.rawConsumer].session == w.heap[r.owner].raw
          && var c := w.heap[r.rawConsumer];
          && ConsumerKey(c.dest, c.selector, c.noLocal) == r.key
          && r.key !in w.caches[r.owner].consumers)
  }

  lemma CachedProducers(w: World, r: Resource)
    requires Sound(w) && ProducersSound(w) && MayCache(w, r)
    ensures ProducersSound(Cached(w, r))
  {
    var w' := Cached(w, r);
    forall s, k | s in w'.caches && k in w'.caches[s].producers ensures ProducerEntry(w', s, k) {
      if !(r.CachedProducer? && s == r.owner && k == r.key) { assert ProducerEntry(w, s, k); }
    }
  }

  lemma CachedConsumers(w: World, r: Resource)
    requires Sound(w) && ConsumersSound(w) && MayCache(w, r)
    ensures ConsumersSound(Cached(w, r))
  {
    var w' := Cached(w, r);
    forall s, k | s in w'.caches && k in w'.caches[s].consumers ensures ConsumerEntry(w', s, k) {
      if !(r.CachedConsumer? && s == r.owner && k == r.key) { assert ConsumerEntry(w, s, k); }
    }
  }

  lemma CachedRows(w: World, r: Resource)
    requires Sound(w) && RowsExact(w) && MayCache(w, r)
    ensures RowsExact(Cached(w, r))
  {
    var w' := Cached(w, r);
    forall s ensures s in w'.caches <==> LivePooled(w', s) {
      assert LivePooled(w', s) <==> LivePooled(w, s);
    }
  }

  lemma CachedUnshared(w: World, r: Resource)
    requires Sound(w) && RawUnshared(w) && MayCache(w, r)
    ensures RawUnshared(Cached(w, r))
  {
  }

  lemma CachedOwned(w: World, r: Resource)
    requires Sound(w) && WrappersOwned(w) && MayCache(w, r)
    ensures WrappersOwned(Cached(w, r))
  {
    var w' := Cached(w, r);
    forall c | c in w'.live && c < |w'.heap| ensures Owned(w', c) {
      if c < |w.heap| { assert Owned(w, c); }
    }
  }

  lemma CachedExact(w: World, r: Resource)
    requires Sound(w) && CachesExact(w) && MayCache(w, r)
    ensures CachesExact(Cached(w, r))
  {
    CachedRows(w, r);
    CachedProducers(w, r);
    CachedConsumers(w, r);
    CachedOwned(w, r);
    CachedUnshared(w, r);
  }

  /** The world after a producer for `d` is created on session `s` and cached. */
  function WithProducer(w: World, s: Id, d: DestinationRef): World
    requires s in w.caches && s < |w.heap| && w.heap[s].PooledSession?
  {
    Cached(Alloc(w, Producer(w.heap[s].raw, d.dest, d.via)),
           CachedProducer(|w.heap|, s, UniqueDestName(d.dest)))
  }

  function WithConsumer(w: World, s: Id, d: DestinationRef, selector: string, noLocal: bool): World
    requires s in w.caches && s < |w.heap| && w.heap[s].PooledSession?
  {
    Cached(Alloc(w, Consumer(w.heap[s].raw, d.dest, selector, noLocal, d.via)),
           CachedConsumer(|w.heap|, s, ConsumerKey(d.dest, selector, noLocal)))
  }

  lemma RawSessionLive(w: World, s: Id)
    requires Sound(w) && LivePooled(w, s)
    ensures w.heap[s].raw in w.live && w.heap[s].raw < |w.heap| && w.heap[w.heap[s].raw].Session?
  {
    assert Typed(w.heap, s);
    assert w.heap[s].raw in Parents(w.heap[s]);
  }

  /** Session `s` is asked for a producer or consumer. */
  function Asked(w: World, s: Id, want: Want): World
    requires s < |w.heap| && w.heap[s].PooledSession?
  {
    w.(asked := w.asked + {Ask(w.heap[s].raw, want)})
  }

  lemma ProducerAllocable(w: World, s: Id, d: DestinationRef)
    requires Sound(w) && LivePooled(w, s) && LiveRef(w, d) && Ask(w.heap[s].raw, Sending(d.dest)) in w.asked
    ensures MayAlloc(w, Producer(w.heap[s].raw, d.dest, d.via))
    ensures MayAlloc(Alloc(w, Producer(w.heap[s].raw, d.dest, d.via)), CachedProducer(|w.heap|, s, UniqueDestName(d.dest)))
  {
    RawSessionLive(w, s);
  }

  lemma ConsumerAllocable(w: World, s: Id, d: DestinationRef, selector: string, noLocal: bool, key: string)
    requires Sound(w) && LivePooled(w, s) && LiveRef(w, d)
    requires Ask(w.heap[s].raw, Receiving(d.dest, selector, noLocal)) in w.asked
    ensures MayAlloc(w, Consumer(w.heap[s].raw, d.dest, selector, noLocal, d.via))
    ensures MayAlloc(Alloc(w, Consumer(w.heap[s].raw, d.dest, selector, noLocal, d.via)), CachedConsumer(|w.heap|, s, key))
  {
    RawSessionLive(w, s);
  }

  // ---- Destroying a pooled session ----

  function ProducerValues(c: Caches): set<Id> {
    ValuesAt(c.producers, c.producers.Keys)
  }

  function ConsumerValues(c: Caches): set<Id> {
    ValuesAt(c.consumers, c.consumers.Keys)
  }

  /** A pooled session and the wrappers in its caches. */
  function Belongings(w: World, s: Id): set<Id>
    requires s in w.caches
  {
    {s} + ProducerValues(w.caches[s]) + ConsumerValues(w.caches[s])
  }

  /** From `w0` to `w1` exactly `gone` was freed. */
  ghost predicate OnlyFreed(w0: World, w1: World, gone: set<Id>) {
    w1 == w0.(live := w0.live - gone, freed := w1.freed, caches := w0.caches - gone)
  }

  lemma WrapperDeletable(w: World, c: Id)
    requires Sound(w) && c in w.live && c < |w.heap|
    requires w.heap[c].CachedProducer? || w.heap[c].CachedConsumer?
    ensures MayDelete(w, c)
  {
    forall x | x in w.live && x < |w.heap| ensures c !in Parents(w.heap[x]) {
      assert Typed(w.heap, x);
    }
  }

  lemma PooledDeletable(w: World, s: Id)
    requires Sound(w) && LivePooled(w, s)
    requires forall c :: c in w.live && c < |w.heap| && (w.heap[c].CachedProducer? || w.heap[c].CachedConsumer?)
               ==> w.heap[c].owner != s
    ensures MayDelete(w, s)
  {
    forall x | x in w.live && x < |w.heap| ensures s !in Parents(w.heap[x]) {
      assert Typed(w.heap, x);
    }
  }

  function ValuesAt(cache: map<string, Id>, keys: set<string>): set<Id>
    requires keys <= cache.Keys
  {
    set k | k in keys :: cache[k]
  }

  /** The loop that deletes one cache's wrappers. */
  method DeleteWrappers(rt: CmsRuntime, cache: map<string, Id>, ghost w0: World, ghost gone0: set<Id>)
    requires Sound(rt.w) && OnlyFreed(w0, rt.w, gone0)
    requires forall k :: k in cache ==> WrapperOf(w0, cache[k], k) && cache[k] !in gone0
    modifies rt
    ensures Sound(rt.w) && OnlyFreed(w0, rt.w, gone0 + ValuesAt(cache, cache.Keys))
  {
    var keys := cache.Keys;
    ghost var done: set<string> := {};
    NothingFreed(gone0, cache);
    while keys != {}
      invariant keys <= cache.Keys && done == cache.Keys - keys
      invariant Sound(rt.w) && OnlyFreed(w0, rt.w, gone0 + ValuesAt(cache, done))
      decreases |keys|
    {
      var k :| k in keys;
      NextWrapper(w0, rt.w, gone0, cache, done, k);
      WrapperDeletable(rt.w, cache[k]);
      ghost var before := rt.w;
      rt.Delete(cache[k]);
      OneMoreFreed(w0, before, rt.w, gone0, cache, done, k);
      keys, done := keys - {k}, done + {k};
    }
    assert done == cache.Keys;
  }

  lemma NothingFreed(gone0: set<Id>, cache: map<string, Id>)
    ensures gone0 + ValuesAt(cache, {}) == gone0
  {
    assert ValuesAt(cache, {}) == {};
  }

  lemma NextWrapper(w0: World, w: World, gone0: set<Id>, cache: map<string, Id>, done: set<string>, k: string)
    requires forall j :: j in cache ==> WrapperOf(w0, cache[j], j) && cache[j] !in gone0
    requires done <= cache.Keys && k in cache && k !in done
    requires OnlyFreed(w0, w, gone0 + ValuesAt(cache, done))
    ensures cache[k] in w.live && cache[k] < |w.heap|
    ensures w.heap[cache[k]].CachedProducer? || w.heap[cache[k]].CachedConsumer?
  {
    assert WrapperOf(w0, cache[k], k);
    forall j | j in done ensures cache[j] != cache[k] {
      assert WrapperOf(w0, cache[j], j);
    }
  }

  lemma OneMoreFreed(w0: World, w: World, w1: World, gone0: set<Id>, cache: map<string, Id>, done: set<string>, k: string)
    requires done <= cache.Keys && k in cache
    requires OnlyFreed(w0, w, gone0 + ValuesAt(cache, done)) && w1 == Free(w, cache[k])
    ensures OnlyFreed(w0, w1, gone0 + ValuesAt(cache, done + {k}))
  {
    var gone := gone0 + ValuesAt(cache, done);
    var more := gone0 + ValuesAt(cache, done + {k});
    assert more == gone + {cache[k]};
    assert w0.live - more == w0.live - gone - {cache[k]};
    assert w0.caches - more == w0.caches - gone - {cache[k]};
  }

  predicate BelongsTo(r: Resource, s: Id) {
    (r.CachedProducer? || r.CachedConsumer?) && r.owner == s
  }

  lemma BelongingsExact(w: World, s: Id)
    requires CachesExact(w) && s in w.caches
    ensures forall id :: id in Belongings(w, s) <==>
              id == s || (id in w.live && id < |w.heap| && BelongsTo(w.heap[id], s))
  {
    assert forall k :: k in w.caches[s].producers ==> ProducerEntry(w, s, k);
    assert forall k :: k in w.caches[s].consumers ==> ConsumerEntry(w, s, k);
    forall id | id in w.live && id < |w.heap| && BelongsTo(w.heap[id], s) ensures id in Belongings(w, s) {
      assert Owned(w, id);
    }
  }

  /** `w1` is `w0` without session `s` and the wrappers that belong to it. */
  ghost predicate WithoutPooled(w0: World, w1: World, s: Id) {
    && w1.heap == w0.heap
    && (forall id :: id in w1.live <==> id in w0.live && id != s && (id < |w0.heap| ==> !BelongsTo(w0.heap[id], s)))
    && (forall t :: t in w1.caches <==> t in w0.caches && t != s)
    && (forall t :: t in w1.caches ==> w1.caches[t] == w0.caches[t])
  }

  lemma FreedIsWithout(w0: World, w1: World, s: Id)
    requires Sound(w0) && CachesExact(w0) && s in w0.caches
    requires OnlyFreed(w0, w1, Belongings(w0, s))
    ensures WithoutPooled(w0, w1, s)
  {
    BelongingsExact(w0, s);
    forall t | t in w0.caches && t != s ensures t !in Belongings(w0, s) {
      assert LivePooled(w0, t);
    }
  }

  lemma WithoutProducers(w0: World, w1: World, s: Id)
    requires RowsExact(w0) && ProducersSound(w0) && WithoutPooled(w0, w1, s) && LivePooled(w0, s)
    ensures ProducersSound(w1)
  {
    forall t, k | t in w1.caches && k in w1.caches[t].producers ensures ProducerEntry(w1, t, k) {
      assert ProducerEntry(w0, t, k);
    }
  }

  lemma WithoutConsumers(w0: World, w1: World, s: Id)
    requires RowsExact(w0) && ConsumersSound(w0) && WithoutPooled(w0, w1, s) && LivePooled(w0, s)
    ensures ConsumersSound(w1)
  {
    forall t, k | t in w1.caches && k in w1.caches[t].consumers ensures ConsumerEntry(w1, t, k) {
      assert ConsumerEntry(w0, t, k);
    }
  }

  lemma WithoutOwned(w0: World, w1: World, s: Id)
    requires WrappersOwned(w0) && WithoutPooled(w0, w1, s)
    ensures WrappersOwned(w1)
  {
    forall c | c in w1.live && c < |w1.heap| ensures Owned(w1, c) {
      assert Owned(w0, c);
    }
  }

  lemma WithoutRows(w0: World, w1: World, s: Id)
    requires RowsExact(w0) && WithoutPooled(w0, w1, s)
    ensures RowsExact(w1)
  {
    forall t ensures t in w1.caches <==> LivePooled(w1, t) {
      assert t in w0.caches <==> LivePooled(w0, t);
    }
  }

  lemma WithoutExact(w0: World, w1: World, s: Id)
    requires CachesExact(w0) && WithoutPooled(w0, w1, s) && LivePooled(w0, s)
    ensures CachesExact(w1)
  {
    WithoutRows(w0, w1, s);
    WithoutProducers(w0, w1, s);
    WithoutConsumers(w0, w1, s);
    WithoutOwned(w0, w1, s);
  }

  /** ~PooledSession: deletes the cached producers, the cached consumers and the session's own
      memory; raw producers, consumers and sessions stay with the lifecycle manager. */
  method DeletePooledSession(rt: CmsRuntime, s: Id)
    requires Sound(rt.w) && CachesExact(rt.w) && s in rt.w.caches
    modifies rt
    ensures Sound(rt.w) && CachesExact(rt.w)
    ensures OnlyFreed(old(rt.w), rt.w, Belongings(old(rt.w), s))
  {
    ghost var w0 := rt.w;
    var row := rt.w.caches[s];
    EntriesDeletable(w0, s);
    assert w0.live - {} == w0.live && w0.caches - {} == w0.caches;
    DeleteWrappers(rt, row.producers, w0, {});
    assert {} + ProducerValues(row) == ProducerValues(row);
    DeleteWrappers(rt, row.consumers, w0, ProducerValues(row));
    OwnersGone(w0, rt.w, s);
    PooledDeletable(rt.w, s);
    rt.Delete(s);
    LastOneFreed(w0, rt.w, s);
    FreedIsWithout(w0, rt.w, s);
    assert LivePooled(w0, s);
    WithoutExact(w0, rt.w, s);
  }

  lemma LastOneFreed(w0: World, w1: World, s: Id)
    requires s in w0.caches
    requires w1 == w0.(live := w0.live - (ProducerValues(w0.caches[s]) + ConsumerValues(w0.caches[s])) - {s},
                       freed := w1.freed,
                       caches := w0.caches - (ProducerValues(w0.caches[s]) + ConsumerValues(w0.caches[s])) - {s})
    ensures OnlyFreed(w0, w1, Belongings(w0, s))
  {
    var inner := ProducerValues(w0.caches[s]) + ConsumerValues(w0.caches[s]);
    assert Belongings(w0, s) == inner + {s};
    assert w0.live - Belongings(w0, s) == w0.live - inner - {s};
    assert w0.caches - Belongings(w0, s) == w0.caches - inner - {s};
  }

  /** What both deletion loops need to know about the entries they walk. */
  lemma EntriesDeletable(w: World, s: Id)
    requires CachesExact(w) && s in w.caches
    ensures forall k :: k in w.caches[s].producers ==> WrapperOf(w, w.caches[s].producers[k], k)
    ensures forall k :: k in w.caches[s].consumers ==> WrapperOf(w, w.caches[s].consumers[k], k)
    ensures ProducerValues(w.caches[s]) !! ConsumerValues(w.caches[s])
  {
    assert forall k :: k in w.caches[s].producers ==> ProducerEntry(w, s, k);
    assert forall k :: k in w.caches[s].consumers ==> ConsumerEntry(w, s, k);
    forall k | k in w.caches[s].producers ensures WrapperOf(w, w.caches[s].producers[k], k) {
      assert w.caches[s].producers[k] in w.caches ==> LivePooled(w, w.caches[s].producers[k]);
    }
    forall k | k in w.caches[s].consumers ensures WrapperOf(w, w.caches[s].consumers[k], k) {
      assert w.caches[s].consumers[k] in w.caches ==> LivePooled(w, w.caches[s].consumers[k]);
    }
  }

  ghost predicate WrapperOf(w: World, c: Id, k: string) {
    && c in w.live && c < |w.heap| && c !in w.caches
    && (w.heap[c].CachedProducer? || w.heap[c].CachedConsumer?)
    && w.heap[c].key == k
  }

  lemma OwnersGone(w0: World, w: World, s: Id)
    requires CachesExact(w0) && s in w0.caches
    requires OnlyFreed(w0, w, ProducerValues(w0.caches[s]) + ConsumerValues(w0.caches[s]))
    ensures forall c :: c in w.live && c < |w.heap| && (w.heap[c].CachedProducer? || w.heap[c].CachedConsumer?)
               ==> w.heap[c].owner != s
    ensures LivePooled(w, s)
  {
    forall c | c in w.live && c < |w.heap| && (w.heap[c].CachedProducer? || w.heap[c].CachedConsumer?)
      ensures w.heap[c].owner != s
    {
      assert Owned(w0, c);
    }
    assert LivePooled(w0, s);
    EntriesDeletable(w0, s);
  }

  // ---- The caching factories ----

  /** createCachedProducer for a non-null destination: the entry under the destination's key
      if there is one; otherwise a new raw producer, put under management, wrapped and cached. */
  method CreateCachedProducer(rt: CmsRuntime, manager: ResourceLifecycleManager, s: Id, d: DestinationRef)
    returns (c: Option<Id>)
    requires Sound(rt.w) && LivePooled(rt.w, s) && s in rt.w.caches && LiveRef(rt.w, d)
    modifies rt, manager
    ensures Sound(rt.w)
    ensures UniqueDestName(d.dest) in old(rt.w).caches[s].producers ==>
              && c == Some(old(rt.w).caches[s].producers[UniqueDestName(d.dest)])
              && rt.w == Asked(old(rt.w), s, Sending(d.dest)) && manager.Contents() == old(manager.Contents())
    ensures UniqueDestName(d.dest) !in old(rt.w).caches[s].producers ==>
              ProducerCreated(Asked(old(rt.w), s, Sending(d.dest)), rt.w, old(manager.Contents()), manager.Contents(), s, d, c)
  {
    rt.Request(Ask(rt.w.heap[s].raw, Sending(d.dest)));
    var key := UniqueDestName(d.dest);
    if key in rt.w.caches[s].producers {
      c := Some(rt.w.caches[s].producers[key]);
    } else {
      c := AddCachedProducer(rt, manager, s, d, key);
    }
  }

  ghost predicate ProducerCreated(w0: World, w1: World, l0: Lists, l1: Lists, s: Id, d: DestinationRef, c: Option<Id>)
    requires s in w0.caches && LivePooled(w0, s)
  {
    if c.None? then
      w1 == w0.(faults := w0.faults + 1) && l1 == l0
    else
      && c.value == |w0.heap| + 1
      && w1 == WithProducer(w0, s, d)
      && l1 == AddTo(l0, Producer(w0.heap[s].raw, d.dest, d.via), |w0.heap|)
  }

  method AddCachedProducer(rt: CmsRuntime, manager: ResourceLifecycleManager, s: Id, d: DestinationRef, key: string)
    returns (c: Option<Id>)
    requires Sound(rt.w) && LivePooled(rt.w, s) && s in rt.w.caches && LiveRef(rt.w, d)
    requires Ask(rt.w.heap[s].raw, Sending(d.dest)) in rt.w.asked
    requires key == UniqueDestName(d.dest) && key !in rt.w.caches[s].producers
    modifies rt, manager
    ensures Sound(rt.w)
    ensures ProducerCreated(old(rt.w), rt.w, old(manager.Contents()), manager.Contents(), s, d, c)
  {
    ghost var w0 := rt.w;
    ProducerAllocable(w0, s, d);
    var p := rt.Create(Producer(rt.w.heap[s].raw, d.dest, d.via));
    if p.None? {
      return None;
    }
    manager.AddMessageProducer(p.value);
    var wrapper := rt.New(CachedProducer(p.value, s, key));
    var row := rt.w.caches[s];
    rt.PutCaches(s, row.(producers := row.producers[key := wrapper]));
    c := Some(wrapper);
  }

  method CreateCachedConsumer(rt: CmsRuntime, manager: ResourceLifecycleManager, s: Id, d: DestinationRef,
                              selector: string, noLocal: bool)
    returns (c: Option<Id>)
    requires Sound(rt.w) && LivePooled(rt.w, s) && s in rt.w.caches && LiveRef(rt.w, d)
    modifies rt, manager
    ensures Sound(rt.w)
    ensures ConsumerKey(d.dest, selector, noLocal) in old(rt.w).caches[s].consumers ==>
              && c == Some(old(rt.w).caches[s].consumers[ConsumerKey(d.dest, selector, noLocal)])
              && rt.w == Asked(old(rt.w), s, Receiving(d.dest, selector, noLocal))
              && manager.Contents() == old(manager.Contents())
    ensures ConsumerKey(d.dest, selector, noLocal) !in old(rt.w).caches[s].consumers ==>
              ConsumerCreated(Asked(old(rt.w), s, Receiving(d.dest, selector, noLocal)), rt.w,
                              old(manager.Contents()), manager.Contents(), s, d, selector, noLocal, c)
  {
    rt.Request(Ask(rt.w.heap[s].raw, Receiving(d.dest, selector, noLocal)));
    var key := ConsumerKey(d.dest, selector, noLocal);
    if key in rt.w.caches[s].consumers {
      c := Some(rt.w.caches[s].consumers[key]);
    } else {
      c := AddCachedConsumer(rt, manager, s, d, selector, noLocal, key);
    }
  }

  ghost predicate ConsumerCreated(w0: World, w1: World, l0: Lists, l1: Lists, s: Id, d: DestinationRef,
                                  selector: string, noLocal: bool, c: Option<Id>)
    requires s in w0.caches && LivePooled(w0, s)
  {
    if c.None? then
      w1 == w0.(faults := w0.faults + 1) && l1 == l0
    else
      && c.value == |w0.heap| + 1
      && w1 == WithConsumer(w0, s, d, selector, noLocal)
      && l1 == AddTo(l0, Consumer(w0.heap[s].raw, d.dest, selector, noLocal, d.via), |w0.heap|)
  }

  method AddCachedConsumer(rt: CmsRuntime, manager: ResourceLifecycleManager, s: Id, d: DestinationRef,
                           selector: string, noLocal: bool, key: string)
    returns (c: Option<Id>)
    requires Sound(rt.w) && LivePooled(rt.w, s) && s in rt.w.caches && LiveRef(rt.w, d)
    requires Ask(rt.w.heap[s].raw, Receiving(d.dest, selector, noLocal)) in rt.w.asked
    requires key == ConsumerKey(d.dest, selector, noLocal) && key !in rt.w.caches[s].consumers
    modifies rt, manager
    ensures Sound(rt.w)
    ensures ConsumerCreated(old(rt.w), rt.w, old(manager.Contents()), manager.Contents(), s, d, selector, noLocal, c)
  {
    ghost var w0 := rt.w;
    ConsumerAllocable(w0, s, d, selector, noLocal, key);
    var p := rt.Create(Consumer(rt.w.heap[s].raw, d.dest, selector, noLocal, d.via));
    if p.None? {
      return None;
    }
    manager.AddMessageConsumer(p.value);
    var wrapper := rt.New(CachedConsumer(p.value, s, key));
    var row := rt.w.caches[s];
    rt.PutCaches(s, row.(consumers := row.consumers[key := wrapper]));
    c := Some(wrapper);
  }

  /** Bookkeeping that the caches do not see. */
  ghost predicate SameCaches(w: World, w': World) {
    w'.heap == w.heap && w'.live == w.live && w'.caches == w.caches
  }

  lemma CachesIgnore(w: World, w': World)
    requires CachesExact(w) && SameCaches(w, w')
    ensures CachesExact(w')
  {
    forall s, k | s in w'.caches && k in w'.caches[s].producers ensures ProducerEntry(w', s, k) {
      assert ProducerEntry(w, s, k);
    }
    forall s, k | s in w'.caches && k in w'.caches[s].consumers ensures ConsumerEntry(w', s, k) {
      assert ConsumerEntry(w, s, k);
    }
    forall s ensures s in w'.caches <==> LivePooled(w', s) {
      assert s in w.caches <==> LivePooled(w, s);
    }
    forall c | c in w'.live && c < |w'.heap| ensures Owned(w', c) {
      assert Owned(w, c);
    }
  }
}
