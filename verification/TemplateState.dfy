/** The state of a CmsTemplate as a value, its invariant, and what each update keeps. */
module TemplateState {
  import opened Wrappers
  import opened Runtime
  import opened ResourceLifecycleManagers
  import opened PooledSessions
  import opened SessionPools
  import opened DestinationResolvers
  import opened Commands

  const NUM_SESSION_POOLS := 4

  datatype Template = Template(
    initialized: bool,
    connection: Option<Id>,
    pools: seq<Option<PoolState>>,
    defaultDestination: Option<DestinationRef>,
    memo: Memo,
    adopted: bool,
    lists: Lists,
    config: Config)

  const NO_POOLS: seq<Option<PoolState>> := [None, None, None, None]

  /** What the client has set: a default destination object counts when it is his own. */
  function View(t: Template): Settings {
    Settings(t.config,
             if t.defaultDestination.Some? && t.defaultDestination.value.via.None?
             then Some(t.defaultDestination.value.dest) else None)
  }

  // ---- The invariant ----

  /** A pool lists the live pooled sessions of its mode, each once. */
  ghost predicate PoolOwns(p: PoolState, m: nat, w: World) {
    && p.mode as int == m && WellFormed(p.pool)
    && forall s: Id :: s in p.pool.sessions <==> LivePooled(w, s) && w.heap[s].mode as int == m
  }

  /** Every live pooled session is listed by the pool of its mode. */
  ghost predicate PoolsOwn(pools: seq<Option<PoolState>>, w: World) {
    && |pools| == NUM_SESSION_POOLS
    && forall m: nat :: m < NUM_SESSION_POOLS ==>
         if pools[m].Some? then PoolOwns(pools[m].value, m, w)
         else forall s: Id :: LivePooled(w, s) ==> w.heap[s].mode as int != m
  }

  /** The connection is set if and only if all four pools are, and they refer to it. */
  ghost predicate Linked(pools: seq<Option<PoolState>>, connection: Option<Id>) {
    && |pools| == NUM_SESSION_POOLS
    && forall m: nat :: m < NUM_SESSION_POOLS ==>
         if pools[m].Some? then connection == Some(pools[m].value.connection) else connection.None?
  }

  ghost predicate ConnectionExact(t: Template) {
    && t.lists.connections == (if t.connection.Some? then [t.connection.value] else [])
    && (t.connection.Some? ==> t.config.hasFactory)
  }

  /** A default destination the template resolved by itself is alive and is what the current
      name and domain denote. */
  ghost predicate DefaultCoherent(d: Option<DestinationRef>, c: Config, w: World) {
    d.Some? && d.value.via.Some? ==>
      LiveRef(w, d.value) && Some(d.value.dest) == ResolveName(c.defaultDestinationName, c)
  }

  /** A live message belongs to the client, and the client's messages live. */
  ghost predicate MessagesDelivered(w: World) {
    forall id :: id in w.delivered <==> id in w.live && id < |w.heap| && w.heap[id].Message?
  }

  ghost predicate InitExact(t: Template) {
    && (t.initialized ==> t.adopted)
    && (!t.initialized ==> t.connection.None? && t.memo == map[])
  }

  /** What destroy relies on: everything alive is owned, and nothing else is listed. */
  ghost predicate Destroyable(t: Template, w: World) {
    && Sound(w) && ListsExact(t.lists, w) && CachesExact(w) && ResolversExact(t.memo, w)
    && PoolsOwn(t.pools, w) && MessagesDelivered(w)
  }

  ghost predicate Inv(t: Template, w: World) {
    && Destroyable(t, w) && MemoExact(t.memo, w)
    && Linked(t.pools, t.connection) && ConnectionExact(t)
    && DefaultCoherent(t.defaultDestination, t.config, w) && InitExact(t)
  }

  /** The initial state, apart from the configuration; all that lives is the client's. */
  ghost predicate Pristine(t: Template, w: World) {
    && !t.initialized && t.connection.None? && t.pools == NO_POOLS && t.defaultDestination.None?
    && t.memo == map[] && t.lists == NO_RESOURCES && w.caches == map[]
    && (forall id :: id in w.live ==> id < |w.heap| && w.heap[id].Message?) && w.live == w.delivered
  }

  lemma PristineInv(t: Template, w: World)
    requires Sound(w) && Pristine(t, w)
    ensures Inv(t, w)
  {
    assert forall s: Id :: !LivePooled(w, s);
  }

  // ---- Destroying ----

  lemma PoolGone(t: Template, w0: World, w1: World, m: nat)
    requires Destroyable(t, w0) && m < NUM_SESSION_POOLS && t.pools[m].Some?
    requires Sound(w1) && CachesExact(w1)
    requires WithoutSessions(w0, w1, t.pools[m].value.pool.sessions)
    ensures Destroyable(t.(pools := t.pools[m := None]), w1)
  {
    var gone := t.pools[m].value.pool.sessions;
    PoolGoneLists(t.lists, w0, w1, gone);
    PoolGonePools(t.pools, w0, w1, m);
    forall s | s in t.memo ensures IsResolver(w1, t.memo[s].self, s) {
      assert IsResolver(w0, t.memo[s].self, s);
      assert t.memo[s].self !in gone by { assert LivePooled(w0, t.memo[s].self) ==> false; }
    }
    assert PoolOwns(t.pools[m].value, m, w0);
  }

  lemma PoolGoneLists(l: Lists, w0: World, w1: World, gone: seq<Id>)
    requires ListsExact(l, w0) && WithoutSessions(w0, w1, gone)
    requires forall s :: s in gone ==> LivePooled(w0, s)
    ensures ListsExact(l, w1)
  {
    UnmanagedGone(l.producers, w0, w1, gone, 0);
    UnmanagedGone(l.consumers, w0, w1, gone, 1);
    UnmanagedGone(l.destinations, w0, w1, gone, 2);
    UnmanagedGone(l.sessions, w0, w1, gone, 3);
    UnmanagedGone(l.connections, w0, w1, gone, 4);
  }

  lemma UnmanagedGone(s: seq<Id>, w0: World, w1: World, gone: seq<Id>, r: nat)
    requires Holds(s, w0, r) && r < 5 && WithoutSessions(w0, w1, gone)
    requires forall s :: s in gone ==> LivePooled(w0, s)
    ensures Holds(s, w1, r)
  {
  }

  lemma PoolGonePools(pools: seq<Option<PoolState>>, w0: World, w1: World, m: nat)
    requires PoolsOwn(pools, w0) && m < NUM_SESSION_POOLS && pools[m].Some?
    requires WithoutSessions(w0, w1, pools[m].value.pool.sessions)
    ensures PoolsOwn(pools[m := None], w1)
  {
    var gone := pools[m].value.pool.sessions;
    assert PoolOwns(pools[m].value, m, w0);
    forall j: nat | j < NUM_SESSION_POOLS && j != m && pools[j].Some? ensures PoolOwns(pools[j].value, j, w1) {
      assert PoolOwns(pools[j].value, j, w0);
      forall s: Id ensures s in pools[j].value.pool.sessions <==> LivePooled(w1, s) && w1.heap[s].mode as int == j {
        assert LivePooled(w1, s) <==> LivePooled(w0, s) && s !in gone;
      }
    }
    forall s: Id | LivePooled(w1, s) ensures LivePooled(w0, s) && s !in gone {}
  }

  lemma NoPoolsNoWrappers(t: Template, w: World)
    requires Destroyable(t, w) && t.pools == NO_POOLS
    ensures NoWrappers(w) && w.caches == map[]
  {
    assert t.pools[0].None? && t.pools[1].None? && t.pools[2].None? && t.pools[3].None?;
    assert forall s: Id :: !LivePooled(w, s);
    forall c | c in w.live && c < |w.heap| ensures !Wrapper(w.heap[c]) {
      assert Owned(w, c);
      assert !LivePooled(w, c);
    }
  }

  lemma ResolversGone(t: Template, w0: World, w1: World)
    requires Destroyable(t, w0) && t.pools == NO_POOLS
    requires Sound(w1) && ResolversFreed(w0, w1)
    ensures ListsExact(t.lists, w1) && NoWrappers(w1) && w1.caches == map[] && MessagesDelivered(w1)
    ensures forall id :: id in w1.live && id < |w1.heap| ==> Managed(w1.heap[id]) || w1.heap[id].Message?
  {
    NoPoolsNoWrappers(t, w0);
  }

  lemma ManagedGone(t: Template, l: Lists, w0: World, w1: World)
    requires Sound(w0) && ListsExact(l, w0) && MessagesDelivered(w0) && w0.caches == map[]
    requires forall id :: id in w0.live && id < |w0.heap| ==> Managed(w0.heap[id]) || w0.heap[id].Message?
    requires w1 == FreeAll(w0.(closed := w0.closed + SetOf(l.connections)), DeletionOrder(l))
    requires !t.initialized && t.connection.None? && t.pools == NO_POOLS && t.defaultDestination.None?
    requires t.memo == map[] && t.lists == NO_RESOURCES
    ensures Pristine(t, w1)
  {
    forall id | id in w1.live ensures w1.heap[id].Message? {
      assert id !in DeletionOrder(l);
    }
  }

  // ---- Growing ----

  lemma PoolsAlloc(pools: seq<Option<PoolState>>, w: World, r: Resource)
    requires PoolsOwn(pools, w) && !r.PooledSession? && Sound(w)
    ensures PoolsOwn(pools, Alloc(w, r))
  {
    var w' := Alloc(w, r);
    assert forall s: Id :: LivePooled(w', s) <==> LivePooled(w, s);
    forall m: nat | m < NUM_SESSION_POOLS && pools[m].Some? ensures PoolOwns(pools[m].value, m, w') {
      assert PoolOwns(pools[m].value, m, w);
    }
  }

  lemma DefaultAlloc(d: Option<DestinationRef>, c: Config, w: World, r: Resource)
    requires DefaultCoherent(d, c, w) && Sound(w)
    ensures DefaultCoherent(d, c, Alloc(w, r))
  {
  }

  /** A raw resource below the connection is created and put under management. */
  lemma ManagedAdded(t: Template, w: World, r: Resource)
    requires Inv(t, w) && Managed(r) && !r.Connection? && MayAlloc(w, r)
    ensures Inv(t.(lists := AddTo(t.lists, r, |w.heap|)), Alloc(w, r))
  {
    AllocSound(w, r);
    ListsAlloc(t.lists, w, r);
    AllocKeepsCaches(w, r);
    MemoAlloc(t.memo, w, r);
    PoolsAlloc(t.pools, w, r);
    DefaultAlloc(t.defaultDestination, t.config, w, r);
  }

  lemma WrapperAllocated(t: Template, w: World, r: Resource)
    requires Inv(t, w) && (r.CachedProducer? || r.CachedConsumer?) && MayAlloc(w, r)
    ensures var w' := Alloc(w, r);
            && Sound(w') && ListsExact(t.lists, w') && MemoExact(t.memo, w') && PoolsOwn(t.pools, w')
            && MessagesDelivered(w') && DefaultCoherent(t.defaultDestination, t.config, w')
  {
    AllocSound(w, r);
    ListsAlloc(t.lists, w, r);
    MemoAlloc(t.memo, w, r);
    PoolsAlloc(t.pools, w, r);
    DefaultAlloc(t.defaultDestination, t.config, w, r);
  }

  /** A cache wrapper is created and cached. */
  lemma WrapperAdded(t: Template, w: World, r: Resource)
    requires Inv(t, w) && MayCache(w, r) && MayAlloc(w, r)
    ensures Inv(t, Cached(w, r))
  {
    WrapperAllocated(t, w, r);
    CachedExact(w, r);
    InvIgnoresCaches(t, Alloc(w, r), Cached(w, r));
  }

  /** The parts of the invariant that do not look at the caches. */
  lemma InvIgnoresCaches(t: Template, w: World, w': World)
    requires w' == w.(caches := w'.caches)
    requires Sound(w) && ListsExact(t.lists, w) && MemoExact(t.memo, w) && PoolsOwn(t.pools, w)
    requires MessagesDelivered(w) && DefaultCoherent(t.defaultDestination, t.config, w)
    ensures Sound(w') && ListsExact(t.lists, w') && MemoExact(t.memo, w') && PoolsOwn(t.pools, w')
    ensures MessagesDelivered(w') && DefaultCoherent(t.defaultDestination, t.config, w')
  {
    forall s, b, n | s in t.memo && n in t.memo[s].Names(b) ensures NameEntry(w', t.memo[s].Names(b)[n], b, n) {
      assert NameEntry(w, t.memo[s].Names(b)[n], b, n);
    }
    forall s | s in t.memo ensures IsResolver(w', t.memo[s].self, s) && LivePooled(w', s) {
      assert IsResolver(w, t.memo[s].self, s) && LivePooled(w, s);
    }
    assert forall s: Id :: LivePooled(w', s) <==> LivePooled(w, s);
    forall m: nat | m < NUM_SESSION_POOLS && t.pools[m].Some? ensures PoolOwns(t.pools[m].value, m, w') {
      assert PoolOwns(t.pools[m].value, m, w);
    }
  }

  /** Faults, events, flags and requests are not part of the ownership structure. */
  ghost predicate SameStructure(w: World, w': World) {
    && w'.heap == w.heap && w'.live == w.live && w'.freed == w.freed && w'.caches == w.caches
    && w'.delivered == w.delivered
  }

  lemma StructureKept(t: Template, w: World, w': World)
    requires Inv(t, w) && SameStructure(w, w') && Sound(w')
    ensures Inv(t, w')
  {
    CachesIgnore(w, w');
    forall s, b, n | s in t.memo && n in t.memo[s].Names(b) ensures NameEntry(w', t.memo[s].Names(b)[n], b, n) {
      assert NameEntry(w, t.memo[s].Names(b)[n], b, n);
    }
    forall s | s in t.memo ensures IsResolver(w', t.memo[s].self, s) && LivePooled(w', s) {
      assert IsResolver(w, t.memo[s].self, s) && LivePooled(w, s);
    }
    PoolsSame(t.pools, w, w');
  }

  lemma PoolsSame(pools: seq<Option<PoolState>>, w: World, w': World)
    requires PoolsOwn(pools, w) && w'.heap == w.heap && w'.live == w.live
    ensures PoolsOwn(pools, w')
  {
    assert forall s: Id :: LivePooled(w', s) <==> LivePooled(w, s);
    forall m: nat | m < NUM_SESSION_POOLS && pools[m].Some? ensures PoolOwns(pools[m].value, m, w') {
      assert PoolOwns(pools[m].value, m, w);
    }
  }

  // ---- Connecting ----

  function EmptyPools(c: Id): seq<Option<PoolState>> {
    [Some(PoolState(c, 0, EMPTY_POOL)), Some(PoolState(c, 1, EMPTY_POOL)),
     Some(PoolState(c, 2, EMPTY_POOL)), Some(PoolState(c, 3, EMPTY_POOL))]
  }

  lemma NoConnectionNoSessions(t: Template, w: World)
    requires Inv(t, w) && t.connection.None?
    ensures forall s: Id :: !LivePooled(w, s)
    ensures t.pools == NO_POOLS
  {
    assert t.pools[0].None? && t.pools[1].None? && t.pools[2].None? && t.pools[3].None?;
    assert forall s: Id :: !LivePooled(w, s);
  }

  /** A connection is created, and from then on destroy can clean it up. */
  lemma ConnectionAdded(t: Template, w: World)
    requires Inv(t, w) && t.connection.None? && t.config.hasFactory
    ensures var t' := t.(connection := Some(|w.heap|), lists := AddTo(t.lists, Connection, |w.heap|));
            && Destroyable(t', Alloc(w, Connection)) && MemoExact(t'.memo, Alloc(w, Connection))
            && ConnectionExact(t') && DefaultCoherent(t.defaultDestination, t.config, Alloc(w, Connection))
            && LiveConnection(Alloc(w, Connection), |w.heap|)
  {
    AllocSound(w, Connection);
    ListsAlloc(t.lists, w, Connection);
    AllocKeepsCaches(w, Connection);
    MemoAlloc(t.memo, w, Connection);
    PoolsAlloc(t.pools, w, Connection);
    DefaultAlloc(t.defaultDestination, t.config, w, Connection);
  }

  /** With a pool for each mode the template is whole again. */
  lemma PoolsAdded(t: Template, w: World)
    requires Inv(t, w) && t.connection.None? && t.initialized && t.config.hasFactory
    ensures Inv(t.(connection := Some(|w.heap|), lists := AddTo(t.lists, Connection, |w.heap|),
                   pools := EmptyPools(|w.heap|)), Alloc(w, Connection))
  {
    NoConnectionNoSessions(t, w);
    ConnectionAdded(t, w);
    assert forall s: Id :: !LivePooled(Alloc(w, Connection), s) by {
      forall s: Id ensures !LivePooled(Alloc(w, Connection), s) { assert !LivePooled(w, s); }
    }
    assert PoolsOwn(EmptyPools(|w.heap|), Alloc(w, Connection));
  }

  // ---- Leasing ----

  /** A session that some frame holds. */
  ghost predicate IsOut(t: Template, w: World, s: Id) {
    && LivePooled(w, s)
    && var m := w.heap[s].mode as int;
    && |t.pools| == NUM_SESSION_POOLS && t.pools[m].Some? && s !in t.pools[m].value.pool.available
  }

  function Created(t: Template, m: PoolMode): nat
    requires |t.pools| == NUM_SESSION_POOLS
  {
    if t.pools[m].Some? then |t.pools[m].value.pool.sessions| else 0
  }

  function LeaseCount(t: Template, m: PoolMode): int
    requires |t.pools| == NUM_SESSION_POOLS
  {
    if t.pools[m].Some? then |t.pools[m].value.pool.sessions| - |t.pools[m].value.pool.available| else 0
  }

  function SetPool(t: Template, m: PoolMode, p: Pool): Template
    requires |t.pools| == NUM_SESSION_POOLS && t.pools[m].Some?
  {
    t.(pools := t.pools[m := Some(t.pools[m].value.(pool := p))])
  }

  /** An idle session is taken. */
  lemma IdleTaken(t: Template, w: World, m: PoolMode)
    requires Inv(t, w) && t.pools[m].Some? && t.pools[m].value.pool.available != []
    ensures var p := t.pools[m].value.pool;
            var t' := SetPool(t, m, Take(p, |w.heap| + 1));
            Inv(t', w) && !IsOut(t, w, p.available[0]) && IsOut(t', w, p.available[0])
            && w.heap[p.available[0]].mode == m
  {
    var p := t.pools[m].value.pool;
    assert PoolOwns(t.pools[m].value, m as nat, w);
    assert p.available[0] in p.sessions;
    assert |w.heap| + 1 !in p.sessions;
    TakeWellFormed(p, |w.heap| + 1);
    PoolReplaced(t.pools, w, m, Take(p, |w.heap| + 1));
  }

  lemma PoolReplaced(pools: seq<Option<PoolState>>, w: World, m: PoolMode, p: Pool)
    requires PoolsOwn(pools, w) && pools[m].Some? && WellFormed(p)
    requires forall s: Id :: s in p.sessions <==> s in pools[m].value.pool.sessions
    ensures PoolsOwn(pools[m := Some(pools[m].value.(pool := p))], w)
  {
    var pools' := pools[m := Some(pools[m].value.(pool := p))];
    assert PoolOwns(pools[m].value, m as nat, w);
    forall j: nat | j < NUM_SESSION_POOLS && pools'[j].Some? ensures PoolOwns(pools'[j].value, j, w) {
      if j != m as int { assert PoolOwns(pools[j].value, j, w); }
    }
  }

  /** A leased session comes back. */
  lemma SessionReturned(t: Template, w: World, m: PoolMode, s: Id)
    requires Inv(t, w) && IsOut(t, w, s) && w.heap[s].mode == m
    ensures Inv(SetPool(t, m, Return(t.pools[m].value.pool, s)), w)
  {
    var p := t.pools[m].value.pool;
    assert PoolOwns(t.pools[m].value, m as nat, w);
    ReturnWellFormed(p, s);
    PoolReplaced(t.pools, w, m, Return(p, s));
  }

  /** A new session is created, wrapped and taken. */
  lemma NewSessionTaken(t: Template, w: World, m: PoolMode)
    requires Inv(t, w) && t.pools[m].Some? && t.pools[m].value.pool.available == []
    ensures var c := t.pools[m].value.connection;
            var t' := SetPool(t, m, Take(t.pools[m].value.pool, |w.heap| + 1))
                        .(lists := AddTo(t.lists, Session(c, m), |w.heap|));
            LiveConnection(w, c) && Inv(t', WithSession(w, c, m)) && IsOut(t', WithSession(w, c, m), |w.heap| + 1)
  {
    hide Inv, PoolsOwn;
    PoolConnectionLive(t, w, m);
    var c := t.pools[m].value.connection;
    ManagedAdded(t, w, Session(c, m));
    var t1 := t.(lists := AddTo(t.lists, Session(c, m), |w.heap|));
    WrapAdded(t1, Alloc(w, Session(c, m)), m, |w.heap|);
  }

  lemma PoolConnectionLive(t: Template, w: World, m: PoolMode)
    requires Inv(t, w) && t.pools[m].Some?
    ensures LiveConnection(w, t.pools[m].value.connection) && |t.pools| == NUM_SESSION_POOLS
    ensures forall m: PoolMode :: t.pools[m].Some?
  {
    assert t.connection == Some(t.pools[m].value.connection);
    assert t.lists.connections == [t.connection.value];
    assert t.connection.value in t.lists.connections;
    assert forall j: nat :: j < NUM_SESSION_POOLS ==> t.pools[j].Some?;
  }

  lemma WrapAdded(t: Template, w: World, m: PoolMode, raw: Id)
    requires Inv(t, w) && t.pools[m].Some? && raw in w.live && raw < |w.heap|
    requires w.heap[raw].Session? && w.heap[raw].mode == m && t.pools[m].value.pool.available == []
    ensures var w' := Alloc(w, PooledSession(raw, m)).(caches := w.caches[|w.heap| := Caches(map[], map[])]);
            var t' := SetPool(t, m, Take(t.pools[m].value.pool, |w.heap|));
            Inv(t', w') && IsOut(t', w', |w.heap|)
  {
    var r := PooledSession(raw, m);
    var w1 := Alloc(w, r);
    var w' := w1.(caches := w.caches[|w.heap| := Caches(map[], map[])]);
    AllocSound(w, r);
    ListsAlloc(t.lists, w, r);
    MemoAlloc(t.memo, w, r);
    DefaultAlloc(t.defaultDestination, t.config, w, r);
    NewRowExact(w, r);
    NewSessionListed(t.pools, w, m, raw);
    InvIgnoresCaches(SetPool(t, m, Take(t.pools[m].value.pool, |w.heap|)), w1, w');
  }

  lemma NewRowExact(w: World, r: Resource)
    requires Sound(w) && CachesExact(w) && r.PooledSession?
    ensures CachesExact(Alloc(w, r).(caches := w.caches[|w.heap| := Caches(map[], map[])]))
  {
    var w' := Alloc(w, r).(caches := w.caches[|w.heap| := Caches(map[], map[])]);
    NewRowEntries(w, r);
    forall s: Id ensures s in w'.caches <==> LivePooled(w', s) {
      assert s in w.caches <==> LivePooled(w, s);
    }
    forall c | c in w'.live && c < |w'.heap| ensures Owned(w', c) {
      if c < |w.heap| { assert Owned(w, c); }
    }
  }

  lemma NewRowEntries(w: World, r: Resource)
    requires Sound(w) && CachesExact(w)
    ensures var w' := Alloc(w, r).(caches := w.caches[|w.heap| := Caches(map[], map[])]);
            ProducersSound(w') && ConsumersSound(w')
  {
    var w' := Alloc(w, r).(caches := w.caches[|w.heap| := Caches(map[], map[])]);
    forall s, k | s in w'.caches && k in w'.caches[s].producers ensures ProducerEntry(w', s, k) {
      assert ProducerEntry(w, s, k);
    }
    forall s, k | s in w'.caches && k in w'.caches[s].consumers ensures ConsumerEntry(w', s, k) {
      assert ConsumerEntry(w, s, k);
    }
  }

  lemma NewSessionListed(pools: seq<Option<PoolState>>, w: World, m: PoolMode, raw: Id)
    requires Sound(w) && PoolsOwn(pools, w) && pools[m].Some? && pools[m].value.pool.available == []
    ensures PoolsOwn(pools[m := Some(pools[m].value.(pool := Take(pools[m].value.pool, |w.heap|)))],
                     Alloc(w, PooledSession(raw, m)))
  {
    var n := |w.heap|;
    var w' := Alloc(w, PooledSession(raw, m));
    var p := pools[m].value.pool;
    var pools' := pools[m := Some(pools[m].value.(pool := Take(p, n)))];
    assert PoolOwns(pools[m].value, m as nat, w);
    assert n !in p.sessions;
    TakeWellFormed(p, n);
    assert forall s: Id :: LivePooled(w', s) <==> LivePooled(w, s) || s == n;
    forall j: nat | j < NUM_SESSION_POOLS && pools'[j].Some? ensures PoolOwns(pools'[j].value, j, w') {
      assert PoolOwns(pools[j].value, j, w);
    }
  }
}
