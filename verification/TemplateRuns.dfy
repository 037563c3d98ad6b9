/** What a run of a template keeps, and how it compares with a naive run. */
module TemplateRuns {
  import opened Wrappers
  import opened Destinations
  import opened CacheKeys
  import opened Runtime
  import opened ResourceLifecycleManagers
  import opened PooledSessions
  import opened SessionPools
  import opened DestinationResolvers
  import opened Commands
  import opened TemplateState

  /** A session's caches, and the flags of the producers in them, are as they were. */
  ghost predicate SessionKept(w0: World, w1: World, s: Id) {
    && s in w0.caches && s in w1.caches && w1.caches[s] == w0.caches[s]
    && forall k :: k in w0.caches[s].producers ==>
         var c := w0.caches[s].producers[k];
         c < |w0.heap| && w0.heap[c].CachedProducer? ==>
           FlagsOf(w1, w0.heap[c].rawProducer) == FlagsOf(w0, w0.heap[c].rawProducer)
  }

  /** The world only grew: nothing created before changed its identity, no event was lost, and
      what the client has received is his to keep. */
  ghost predicate Grew(w0: World, w1: World) {
    && |w0.heap| <= |w1.heap| && w1.heap[..|w0.heap|] == w0.heap
    && w0.events <= w1.events && w0.faults <= w1.faults && w0.delivered <= w1.delivered && w0.asked <= w1.asked
  }

  /** Nothing was freed but messages. */
  ghost predicate NothingLost(w0: World, w1: World) {
    forall id: Id :: id < |w1.heap| && id !in w1.live ==> (id < |w0.heap| && id !in w0.live) || w1.heap[id].Message?
  }

  /** Sessions were asked for nothing new but these wants. */
  ghost predicate AsksFor(w0: World, w1: World, wants: set<Want>) {
    forall a :: a in w1.asked ==> a in w0.asked || a.want in wants
  }

  /** Sessions that were out are still out and untouched, those in `except` aside. */
  ghost predicate Keeps(t0: Template, w0: World, t1: Template, w1: World, except: set<Id>) {
    && Grew(w0, w1) && NothingLost(w0, w1)
    && forall s: Id :: IsOut(t0, w0, s) && s !in except ==> IsOut(t1, w1, s) && SessionKept(w0, w1, s)
  }

  ghost predicate SameLeases(t0: Template, t1: Template) {
    && |t0.pools| == NUM_SESSION_POOLS && |t1.pools| == NUM_SESSION_POOLS
    && forall m: PoolMode :: LeaseCount(t1, m) == LeaseCount(t0, m) && Created(t1, m) == Created(t0, m)
  }

  lemma GrewTrans(w0: World, w1: World, w2: World)
    requires Grew(w0, w1) && Grew(w1, w2)
    ensures Grew(w0, w2)
  {
    assert w2.heap[..|w0.heap|] == w2.heap[..|w1.heap|][..|w0.heap|];
  }

  lemma LossTrans(w0: World, w1: World, w2: World)
    requires Grew(w0, w1) && Grew(w1, w2) && NothingLost(w0, w1) && NothingLost(w1, w2)
    ensures NothingLost(w0, w2)
  {
    forall id: Id | id < |w1.heap| ensures w2.heap[id] == w1.heap[id] {
      assert w2.heap[..|w1.heap|][id] == w1.heap[id];
    }
  }

  lemma KeptTrans(w0: World, w1: World, w2: World, s: Id)
    requires Grew(w0, w1) && SessionKept(w0, w1, s) && SessionKept(w1, w2, s)
    ensures SessionKept(w0, w2, s)
  {
    forall k | k in w0.caches[s].producers
      ensures var c := w0.caches[s].producers[k];
              c < |w0.heap| && w0.heap[c].CachedProducer? ==>
                FlagsOf(w2, w0.heap[c].rawProducer) == FlagsOf(w0, w0.heap[c].rawProducer)
    {
      var c := w0.caches[s].producers[k];
      assert k in w1.caches[s].producers;
      assert c < |w0.heap| ==> w1.heap[c] == w1.heap[..|w0.heap|][c];
    }
  }

  lemma KeepsTrans(t0: Template, w0: World, t1: Template, w1: World, t2: Template, w2: World, except: set<Id>)
    requires Keeps(t0, w0, t1, w1, except) && Keeps(t1, w1, t2, w2, except)
    ensures Keeps(t0, w0, t2, w2, except)
  {
    GrewTrans(w0, w1, w2);
    LossTrans(w0, w1, w2);
    forall s: Id | IsOut(t0, w0, s) && s !in except ensures SessionKept(w0, w2, s) {
      KeptTrans(w0, w1, w2, s);
    }
  }

  /** A session that was not out at the start need not be excepted. */
  lemma KeepsDrop(t0: Template, w0: World, t1: Template, w1: World, s: Id)
    requires Keeps(t0, w0, t1, w1, {s}) && !IsOut(t0, w0, s)
    ensures Keeps(t0, w0, t1, w1, {})
  {
  }

  // ---- The naive run ----

  ghost predicate Matches(t0: Template, w0: World, t1: Template, w1: World, o: Outcome, ok: bool) {
    && ok == o.ok && View(t1) == o.settings
    && w0.events <= w1.events && ServesAll(w1.events[|w0.events|..], o.events)
    && w1.faults == w0.faults + (if o.starved then 1 else 0)
    && AsksFor(w0, w1, o.wants)
    && (ok ==> o.left == 0)
  }

  // ---- How many sessions a command needs at once ----

  function ConfigAfter(cmd: Command, c: Config): Config
    decreases cmd
  {
    match cmd
    case Configure(x) => ApplyConfig(c, x)
    case ExecuteSession(body) => ConfigAfterAll(body, c)
    case ExecuteProducer(_, body) => ConfigAfterAll(body, c)
    case Send(_, creator, _) => ConfigAfterAll(creator, c)
    case _ => c
  }

  function ConfigAfterAll(cmds: seq<Command>, c: Config): Config
    decreases cmds
  {
    if cmds == [] then c else ConfigAfterAll(cmds[1..], ConfigAfter(cmds[0], c))
  }

  function Max(a: nat, b: nat): nat { if a < b then b else a }

  function Own(c: Config, m: PoolMode): nat { if c.acknowledgeMode == m then 1 else 0 }

  /** The deepest nesting of calls that lease from the pool of mode `m`. */
  function Demand(cmd: Command, c: Config, m: PoolMode): nat
    decreases cmd, 1
  {
    if NeedsSession(cmd) then Own(c, m) + InnerDemand(cmd, c, m) else 0
  }

  /** The same for the calls a callback makes while its own session is out. */
  function InnerDemand(cmd: Command, c: Config, m: PoolMode): nat
    decreases cmd, 0
  {
    match cmd
    case ExecuteSession(body) => DemandAll(body, c, m)
    case ExecuteProducer(_, body) => DemandAll(body, c, m)
    case Send(_, creator, _) => DemandAll(creator, c, m)
    case _ => 0
  }

  function DemandAll(cmds: seq<Command>, c: Config, m: PoolMode): nat
    decreases cmds, 0
  {
    if cmds == [] then 0 else Max(Demand(cmds[0], c, m), DemandAll(cmds[1..], ConfigAfter(cmds[0], c), m))
  }

  /** As many sessions are out as before, and the pool of mode `m` has created as many as were
      ever out at once: those already out and `d` more, unless it had created more before. */
  ghost predicate Reached(t0: Template, t1: Template, m: PoolMode, d: nat) {
    && |t0.pools| == NUM_SESSION_POOLS && |t1.pools| == NUM_SESSION_POOLS
    && LeaseCount(t1, m) == LeaseCount(t0, m)
    && Created(t1, m) as int ==
         (if Created(t0, m) as int < LeaseCount(t0, m) + d then LeaseCount(t0, m) + d else Created(t0, m))
  }

  ghost predicate PeakOf(cmd: Command, c: Config, t0: Template, t1: Template) {
    forall m: PoolMode :: Reached(t0, t1, m, Demand(cmd, c, m))
  }

  ghost predicate PeakInside(cmd: Command, c: Config, t0: Template, t1: Template) {
    forall m: PoolMode :: Reached(t0, t1, m, InnerDemand(cmd, c, m))
  }

  ghost predicate PeakOfAll(cmds: seq<Command>, c: Config, t0: Template, t1: Template) {
    forall m: PoolMode :: Reached(t0, t1, m, DemandAll(cmds, c, m))
  }

  lemma ReachedTrans(t0: Template, t1: Template, t2: Template, m: PoolMode, d: nat, e: nat)
    requires Reached(t0, t1, m, d) && Reached(t1, t2, m, e)
    ensures Reached(t0, t2, m, Max(d, e))
  {
  }

  lemma SameLeasesReached(t0: Template, t1: Template, m: PoolMode)
    requires SameLeases(t0, t1)
    ensures Reached(t0, t1, m, 0)
  {
  }

  lemma {:induction false} NaiveConfig(cmd: Command, handed: Option<Handed>, s: Settings, fuel: nat)
    ensures Naive(cmd, handed, s, fuel).ok ==>
              Naive(cmd, handed, s, fuel).settings.config == ConfigAfter(cmd, s.config)
    decreases cmd
  {
    match cmd
    case ExecuteSession(body) =>
      if Acquire(s, fuel).ok { NaiveConfigAll(body, None, s, Acquire(s, fuel).left); }
    case ExecuteProducer(t, body) =>
      if Acquire(s, fuel).ok && Prepare(cmd, s, Acquire(s, fuel).left).ok {
        NaiveConfigAll(body, Some(HandedFor(Resolve(t, s).value, s)), s, Prepare(cmd, s, Acquire(s, fuel).left).left);
      }
    case Send(_, creator, _) =>
      if Acquire(s, fuel).ok && Prepare(cmd, s, Acquire(s, fuel).left).ok {
        NaiveConfigAll(creator, None, s, Prepare(cmd, s, Acquire(s, fuel).left).left);
      }
    case _ =>
  }

  lemma {:induction false} NaiveConfigAll(cmds: seq<Command>, handed: Option<Handed>, s: Settings, fuel: nat)
    ensures NaiveAll(cmds, handed, s, fuel).ok ==>
              NaiveAll(cmds, handed, s, fuel).settings.config == ConfigAfterAll(cmds, s.config)
    decreases cmds
  {
    if cmds != [] {
      var r := Naive(cmds[0], handed, s, fuel);
      NaiveConfig(cmds[0], handed, s, fuel);
      if r.ok { NaiveConfigAll(cmds[1..], handed, r.settings, r.left); }
    }
  }

  // ---- The steps inside one call ----

  /** A step the broker and the client cannot see, in which nothing failed. */
  ghost predicate Unseen(t0: Template, w0: World, t1: Template, w1: World) {
    View(t1) == View(t0) && w1.events == w0.events && w1.faults == w0.faults
  }

  /** Such a step with no lease changed but those in `except`, and nothing asked for but
      `wants`. */
  ghost predicate Silent(t0: Template, w0: World, t1: Template, w1: World, except: set<Id>, wants: set<Want>) {
    Keeps(t0, w0, t1, w1, except) && SameLeases(t0, t1) && Unseen(t0, w0, t1, w1) && AsksFor(w0, w1, wants)
  }

  lemma SilentTrans(t0: Template, w0: World, t1: Template, w1: World, t2: Template, w2: World,
                    except: set<Id>, wants: set<Want>)
    requires Silent(t0, w0, t1, w1, except, wants) && Silent(t1, w1, t2, w2, except, wants)
    ensures Silent(t0, w0, t2, w2, except, wants)
  {
    KeepsTrans(t0, w0, t1, w1, t2, w2, except);
  }

  /** The template was destroyed while it ran: back to the initial state, and nothing that
      the broker saw or the client owns is lost. */
  ghost predicate Collapsed(t0: Template, w0: World, t1: Template, w1: World, wants: set<Want>) {
    && Pristine(t1, w1) && t1.config == t0.config
    && w1.events == w0.events && Grew(w0, w1) && AsksFor(w0, w1, wants)
  }

  /** Growth that leaves flags alone, and caches but those of one session. */
  ghost predicate Added(w0: World, w1: World, except: set<Id>) {
    && Grew(w0, w1) && w1.events == w0.events && w0.live <= w1.live && w1.flags == w0.flags && w1.asked == w0.asked
    && (forall id: Id :: |w0.heap| <= id < |w1.heap| ==> id in w1.live)
    && forall x :: x in w0.caches && x !in except ==> x in w1.caches && w1.caches[x] == w0.caches[x]
  }

  /** Such growth keeps every lease. */
  lemma AddedKeeps(t0: Template, w0: World, t1: Template, w1: World, except: set<Id>)
    requires RowsExact(w0) && |t0.pools| == NUM_SESSION_POOLS && t1.pools == t0.pools && Added(w0, w1, except)
    ensures Keeps(t0, w0, t1, w1, except) && SameLeases(t0, t1)
    ensures forall s: Id :: IsOut(t0, w0, s) ==> IsOut(t1, w1, s)
  {
    forall s: Id | IsOut(t0, w0, s) ensures IsOut(t1, w1, s) && (s !in except ==> SessionKept(w0, w1, s)) {
      assert w1.heap[s] == w1.heap[..|w0.heap|][s];
      assert s in w0.caches <==> LivePooled(w0, s);
    }
  }

  lemma CachedAdded(w: World, raw: Resource, wrapper: Resource)
    requires (wrapper.CachedProducer? || wrapper.CachedConsumer?) && wrapper.owner in w.caches
    ensures Added(w, Cached(Alloc(w, raw), wrapper), {wrapper.owner})
  {
    var w1 := Cached(Alloc(w, raw), wrapper);
    assert w1.heap == w.heap + [raw] + [wrapper];
    assert w1.heap[..|w.heap|] == w.heap;
  }

  // -- taking and returning a session --

  ghost predicate TookSession(t0: Template, w0: World, t1: Template, w1: World, s: Id, m: PoolMode) {
    && Inv(t1, w1) && IsOut(t1, w1, s) && !IsOut(t0, w0, s) && w1.heap[s].mode == m
    && Keeps(t0, w0, t1, w1, {}) && Unseen(t0, w0, t1, w1) && AsksFor(w0, w1, {})
    && |t0.pools| == NUM_SESSION_POOLS
    && forall j: PoolMode ::
         && LeaseCount(t1, j) == LeaseCount(t0, j) + (if j == m then 1 else 0)
         && Created(t1, j) as int ==
              (if j == m && Created(t0, j) as int < LeaseCount(t0, j) + 1 then LeaseCount(t0, j) + 1 else Created(t0, j))
  }

  lemma IdleTakenRel(t: Template, w: World, m: PoolMode)
    requires Inv(t, w) && t.pools[m].Some? && t.pools[m].value.pool.available != []
    ensures var p := t.pools[m].value.pool;
            TookSession(t, w, SetPool(t, m, Take(p, |w.heap| + 1)), w, p.available[0], m)
  {
    var p := t.pools[m].value.pool;
    var t1 := SetPool(t, m, Take(p, |w.heap| + 1));
    IdleTaken(t, w, m);
    forall s: Id | IsOut(t, w, s) ensures IsOut(t1, w, s) && SessionKept(w, w, s) {
      assert s in w.caches <==> LivePooled(w, s);
    }
    AvailableWithin(p);
  }

  lemma AvailableWithin(p: Pool)
    requires WellFormed(p)
    ensures |p.available| <= |p.sessions|
  {
    DistinctSize(p.available);
    DistinctSize(p.sessions);
    SubsetSize(SetOf(p.available), SetOf(p.sessions));
  }

  lemma {:induction false} DistinctSize(s: seq<Id>)
    requires Distinct(s)
    ensures |SetOf(s)| == |s|
  {
    if s == [] {
      assert SetOf(s) == {};
    } else {
      var front, last := s[..|s| - 1], s[|s| - 1];
      DistinctSize(front);
      assert SetOf(s) == SetOf(front) + {last};
      assert last !in front;
    }
  }

  lemma {:induction false} SubsetSize(a: set<Id>, b: set<Id>)
    requires a <= b
    ensures |a| <= |b|
  {
    assert b == a + (b - a);
  }

  lemma OutHasRow(t: Template, w: World, s: Id)
    requires Inv(t, w) && IsOut(t, w, s)
    ensures s in w.caches && s < |w.heap|
    ensures |w.heap| !in w.caches && |w.heap| + 1 !in w.caches
  {
    assert forall x: Id :: x in w.caches ==> LivePooled(w, x);
    assert s in w.caches <==> LivePooled(w, s);
  }

  lemma NewSessionTakenRel(t: Template, w: World, m: PoolMode)
    requires Inv(t, w) && t.pools[m].Some? && t.pools[m].value.pool.available == []
    ensures var c := t.pools[m].value.connection;
            var t1 := SetPool(t, m, Take(t.pools[m].value.pool, |w.heap| + 1))
                        .(lists := AddTo(t.lists, Session(c, m), |w.heap|));
            TookSession(t, w, t1, WithSession(w, c, m), |w.heap| + 1, m)
  {
    hide Inv;
    PoolConnectionLive(t, w, m);
    var c := t.pools[m].value.connection;
    var w1 := WithSession(w, c, m);
    var t1 := SetPool(t, m, Take(t.pools[m].value.pool, |w.heap| + 1))
                .(lists := AddTo(t.lists, Session(c, m), |w.heap|));
    NewSessionTaken(t, w, m);
    assert w1.heap[..|w.heap|] == w.heap;
    forall s: Id | IsOut(t, w, s) ensures IsOut(t1, w1, s) && SessionKept(w, w1, s) {
      OutHasRow(t, w, s);
      assert w1.heap[s] == w.heap[s];
    }
  }

  lemma ReturnedRel(t: Template, w: World, m: PoolMode, s: Id)
    requires Inv(t, w) && IsOut(t, w, s) && w.heap[s].mode == m
    ensures var t1 := SetPool(t, m, Return(t.pools[m].value.pool, s));
            && Inv(t1, w) && Keeps(t, w, t1, w, {s}) && Unseen(t, w, t1, w)
            && forall j: PoolMode ::
                 LeaseCount(t1, j) == LeaseCount(t, j) - (if j == m then 1 else 0) && Created(t1, j) == Created(t, j)
  {
    var t1 := SetPool(t, m, Return(t.pools[m].value.pool, s));
    SessionReturned(t, w, m, s);
    forall x: Id | IsOut(t, w, x) && x != s ensures IsOut(t1, w, x) && SessionKept(w, w, x) {
      assert x in w.caches <==> LivePooled(w, x);
    }
  }

  // -- resolving a name --

  lemma ResolverAdded(t: Template, w: World, s: Id)
    requires Inv(t, w) && LivePooled(w, s) && t.initialized
    ensures Inv(t.(memo := MemoWith(t.memo, w, s)), WorldWith(t.memo, w, s))
  {
    WithResolverExact(t.memo, w, s);
    if s !in t.memo { ResolverAllocated(t, w, s); }
  }

  /** What a new resolver object leaves as it was. */
  lemma ResolverAllocated(t: Template, w: World, s: Id)
    requires Sound(w) && ListsExact(t.lists, w) && CachesExact(w) && PoolsOwn(t.pools, w) && MessagesDelivered(w)
    requires DefaultCoherent(t.defaultDestination, t.config, w)
    ensures var w1 := Alloc(w, ResolverObject(s));
            && ListsExact(t.lists, w1) && CachesExact(w1) && PoolsOwn(t.pools, w1) && MessagesDelivered(w1)
            && DefaultCoherent(t.defaultDestination, t.config, w1)
  {
    var r := ResolverObject(s);
    AllocSound(w, r);
    ListsAlloc(t.lists, w, r);
    AllocKeepsCaches(w, r);
    PoolsAlloc(t.pools, w, r);
    DefaultAlloc(t.defaultDestination, t.config, w, r);
  }

  lemma NameAdded(t: Template, w: World, s: Id, pubSub: bool, name: string)
    requires Inv(t, w) && LivePooled(w, s) && s in t.memo && name != ""
    ensures var r := ManagedDestination(w.heap[s].raw, Named(KindFor(pubSub), name));
            var (memo', w') := WithName(t.memo, w, s, pubSub, name);
            Inv(t.(memo := memo', lists := AddTo(t.lists, r, |w.heap|)), w')
  {
    var r := ManagedDestination(w.heap[s].raw, Named(KindFor(pubSub), name));
    DestinationAllocable(w, s, Named(KindFor(pubSub), name));
    ManagedAdded(t, w, r);
    WithNameExact(t.memo, w, s, pubSub, name);
  }

  /** One call has failed, unless there was a reason why it had to. */
  function Blame(hadTo: bool): nat { if hadTo then 0 else 1 }

  ghost predicate ResolvedName(t0: Template, w0: World, t1: Template, w1: World, name: string, r: Option<DestinationRef>) {
    && Keeps(t0, w0, t1, w1, {}) && SameLeases(t0, t1) && AsksFor(w0, w1, {}) && w1.events == w0.events
    && t1.config == t0.config && t1.defaultDestination == t0.defaultDestination
    && (r.Some? ==> LiveRef(w1, r.value) && r.value.via.Some? && Some(r.value.dest) == ResolveName(name, t0.config))
    && w1.faults == w0.faults + (if r.Some? then 0 else Blame(ResolveName(name, t0.config).None?))
  }

  lemma ResolverGrowth(memo: Memo, w: World, s: Id)
    ensures Added(w, WorldWith(memo, w, s), {})
  {
  }

  lemma ResolutionInv(t: Template, w: World, m1: Memo, w1: World, l1: Lists, s: Id, name: string, r: Option<DestinationRef>)
    requires Inv(t, w) && LivePooled(w, s) && t.initialized
    requires Resolution(t.memo, w, t.lists, m1, w1, l1, s, name, t.config.pubSubDomain, r)
    ensures Inv(t.(memo := m1, lists := l1), w1)
  {
    if name != "" {
      ResolverAdded(t, w, s);
      ResolutionIsLookup(t, w, m1, w1, l1, s, name, r);
      LookupInv(t.(memo := MemoWith(t.memo, w, s)), WorldWith(t.memo, w, s), m1, w1, l1, s, name, r);
    }
  }

  lemma ResolutionRel(t: Template, w: World, m1: Memo, w1: World, l1: Lists, s: Id, name: string, r: Option<DestinationRef>)
    requires Sound(w) && RowsExact(w) && MemoExact(t.memo, w) && |t.pools| == NUM_SESSION_POOLS && LivePooled(w, s)
    requires Resolution(t.memo, w, t.lists, m1, w1, l1, s, name, t.config.pubSubDomain, r)
    ensures ResolvedName(t, w, t.(memo := m1, lists := l1), w1, name, r)
  {
    hide Resolution, Lookup, MemoExact, Sound, Keeps;
    if name == "" {
      NoResolution(t, w, m1, w1, l1, s, r);
    } else {
      var t' := t.(memo := MemoWith(t.memo, w, s));
      WithResolverExact(t.memo, w, s);
      ResolverGrowth(t.memo, w, s);
      ResolutionIsLookup(t, w, m1, w1, l1, s, name, r);
      NamesOf(t'.memo, WorldWith(t.memo, w, s));
      LookupFinds(t', WorldWith(t.memo, w, s), m1, w1, l1, s, name, r);
      AddedTrans(w, WorldWith(t.memo, w, s), w1);
    }
    AddedKeeps(t, w, t.(memo := m1, lists := l1), w1, {});
  }

  lemma NamesOf(memo: Memo, w: World)
    requires MemoExact(memo, w)
    ensures NamesSound(memo, w)
  {
  }

  lemma NoResolution(t: Template, w: World, m1: Memo, w1: World, l1: Lists, s: Id, r: Option<DestinationRef>)
    requires LivePooled(w, s) && Resolution(t.memo, w, t.lists, m1, w1, l1, s, "", t.config.pubSubDomain, r)
    ensures r.None? && w1 == w && Added(w, w1, {})
  {
  }

  lemma AddedTrans(w0: World, w1: World, w2: World)
    requires Added(w0, w1, {}) && Added(w1, w2, {})
    ensures Added(w0, w2, {})
  {
    GrewTrans(w0, w1, w2);
  }

  lemma ResolutionIsLookup(t: Template, w: World, m1: Memo, w1: World, l1: Lists, s: Id, name: string, r: Option<DestinationRef>)
    requires LivePooled(w, s) && name != ""
    requires Resolution(t.memo, w, t.lists, m1, w1, l1, s, name, t.config.pubSubDomain, r)
    ensures var w' := WorldWith(t.memo, w, s);
            && LivePooled(w', s) && w'.faults == w.faults
            && Lookup(MemoWith(t.memo, w, s), w', t.lists, m1, w1, l1, s, name, t.config.pubSubDomain, r)
  {
  }

  lemma LookupInv(t: Template, w: World, m1: Memo, w1: World, l1: Lists, s: Id, name: string, r: Option<DestinationRef>)
    requires Inv(t, w) && LivePooled(w, s) && s in t.memo && name != ""
    requires Lookup(t.memo, w, t.lists, m1, w1, l1, s, name, t.config.pubSubDomain, r)
    ensures Inv(t.(memo := m1, lists := l1), w1)
  {
    var b := t.config.pubSubDomain;
    if name !in t.memo[s].Names(b) {
      if r.None? { StructureKept(t, w, w1); } else { NameAdded(t, w, s, b, name); }
    }
  }

  lemma LookupFinds(t: Template, w: World, m1: Memo, w1: World, l1: Lists, s: Id, name: string, r: Option<DestinationRef>)
    requires NamesSound(t.memo, w) && LivePooled(w, s) && s in t.memo && name != ""
    requires Lookup(t.memo, w, t.lists, m1, w1, l1, s, name, t.config.pubSubDomain, r)
    ensures r.Some? ==> LiveRef(w1, r.value) && r.value.via.Some? && Some(r.value.dest) == ResolveName(name, t.config)
    ensures w1.faults == w.faults + (if r.None? then 1 else 0)
    ensures Added(w, w1, {})
  {
    if name in t.memo[s].Names(t.config.pubSubDomain) {
      assert NameEntry(w, t.memo[s].Names(t.config.pubSubDomain)[name], t.config.pubSubDomain, name);
    }
  }

  // -- caching a producer or a consumer --

  /** A step inside a lease of session `s` that may fill its caches. */
  ghost predicate WithinLease(t0: Template, w0: World, t1: Template, w1: World, s: Id, wants: set<Want>) {
    && IsOut(t1, w1, s) && Silent(t0, w0, t1, w1, {s}, wants) && t1.config == t0.config
  }

  lemma ProducerInv(t: Template, w: World, s: Id, d: DestinationRef)
    requires Inv(t, w) && LivePooled(w, s) && s in w.caches && LiveRef(w, d)
    requires Ask(w.heap[s].raw, Sending(d.dest)) in w.asked
    requires UniqueDestName(d.dest) !in w.caches[s].producers
    ensures Inv(t.(lists := AddTo(t.lists, Producer(w.heap[s].raw, d.dest, d.via), |w.heap|)), WithProducer(w, s, d))
  {
    var raw := Producer(w.heap[s].raw, d.dest, d.via);
    ProducerAllocable(w, s, d);
    ManagedAdded(t, w, raw);
    ProducerMayCache(w, s, d);
    WrapperAdded(t.(lists := AddTo(t.lists, raw, |w.heap|)), Alloc(w, raw),
                 CachedProducer(|w.heap|, s, UniqueDestName(d.dest)));
  }

  lemma ProducerRel(t: Template, w: World, s: Id, d: DestinationRef)
    requires RowsExact(w) && IsOut(t, w, s) && s in w.caches
    ensures WithinLease(t, w, t.(lists := AddTo(t.lists, Producer(w.heap[s].raw, d.dest, d.via), |w.heap|)),
                        WithProducer(w, s, d), s, {})
  {
    CachedAdded(w, Producer(w.heap[s].raw, d.dest, d.via), CachedProducer(|w.heap|, s, UniqueDestName(d.dest)));
    AddedKeeps(t, w, t.(lists := AddTo(t.lists, Producer(w.heap[s].raw, d.dest, d.via), |w.heap|)),
               WithProducer(w, s, d), {s});
  }

  lemma ProducerMayCache(w: World, s: Id, d: DestinationRef)
    requires Sound(w) && CachesExact(w) && LivePooled(w, s) && s in w.caches
    requires UniqueDestName(d.dest) !in w.caches[s].producers
    ensures MayCache(Alloc(w, Producer(w.heap[s].raw, d.dest, d.via)), CachedProducer(|w.heap|, s, UniqueDestName(d.dest)))
  {
    forall c | c in w.live && c < |w.heap| && w.heap[c].CachedProducer? ensures w.heap[c].rawProducer < |w.heap| {
      assert Typed(w.heap, c);
    }
    assert LivePooled(Alloc(w, Producer(w.heap[s].raw, d.dest, d.via)), s);
  }

  lemma ConsumerInv(t: Template, w: World, s: Id, d: DestinationRef, selector: string, noLocal: bool)
    requires Inv(t, w) && LivePooled(w, s) && s in w.caches && LiveRef(w, d)
    requires Ask(w.heap[s].raw, Receiving(d.dest, selector, noLocal)) in w.asked
    requires ConsumerKey(d.dest, selector, noLocal) !in w.caches[s].consumers
    ensures Inv(t.(lists := AddTo(t.lists, Consumer(w.heap[s].raw, d.dest, selector, noLocal, d.via), |w.heap|)),
                WithConsumer(w, s, d, selector, noLocal))
  {
    var key := ConsumerKey(d.dest, selector, noLocal);
    var raw := Consumer(w.heap[s].raw, d.dest, selector, noLocal, d.via);
    ConsumerAllocable(w, s, d, selector, noLocal, key);
    ManagedAdded(t, w, raw);
    assert LivePooled(Alloc(w, raw), s);
    WrapperAdded(t.(lists := AddTo(t.lists, raw, |w.heap|)), Alloc(w, raw), CachedConsumer(|w.heap|, s, key));
  }

  lemma ConsumerRel(t: Template, w: World, s: Id, d: DestinationRef, selector: string, noLocal: bool)
    requires RowsExact(w) && IsOut(t, w, s) && s in w.caches
    ensures WithinLease(t, w, t.(lists := AddTo(t.lists, Consumer(w.heap[s].raw, d.dest, selector, noLocal, d.via), |w.heap|)),
                        WithConsumer(w, s, d, selector, noLocal), s, {})
  {
    var raw := Consumer(w.heap[s].raw, d.dest, selector, noLocal, d.via);
    CachedAdded(w, raw, CachedConsumer(|w.heap|, s, ConsumerKey(d.dest, selector, noLocal)));
    AddedKeeps(t, w, t.(lists := AddTo(t.lists, raw, |w.heap|)), WithConsumer(w, s, d, selector, noLocal), {s});
  }

  // -- using a cached producer --

  /** Wrapper `c` is what session `s` caches for `dest`, and its raw producer has these flags. */
  ghost predicate Caching(w: World, s: Id, c: Id, dest: Destination, flags: Flags) {
    && s in w.caches && UniqueDestName(dest) in w.caches[s].producers
    && w.caches[s].producers[UniqueDestName(dest)] == c
    && c < |w.heap| && w.heap[c].CachedProducer? && FlagsOf(w, w.heap[c].rawProducer) == flags
  }

  /** The session and the producer wrapper that a callback was given. */
  datatype Scope = Scope(session: Id, producer: Id)

  ghost predicate ScopeMatches(t: Template, w: World, scope: Option<Scope>, handed: Option<Handed>) {
    && (scope.Some? <==> handed.Some?)
    && (scope.Some? ==>
          && IsOut(t, w, scope.value.session)
          && Caching(w, scope.value.session, scope.value.producer, handed.value.dest, handed.value.flags)
          && w.heap[scope.value.session].mode == handed.value.mode)
  }

  /** What a callback was given stays good while the template serves nested calls. */
  lemma ScopeKept(t0: Template, w0: World, t1: Template, w1: World, scope: Option<Scope>, handed: Option<Handed>)
    requires Keeps(t0, w0, t1, w1, {}) && ScopeMatches(t0, w0, scope, handed)
    ensures ScopeMatches(t1, w1, scope, handed)
  {
    if scope.Some? {
      var s, c := scope.value.session, scope.value.producer;
      assert SessionKept(w0, w1, s);
      assert w1.heap[s] == w1.heap[..|w0.heap|][s] && w1.heap[c] == w1.heap[..|w0.heap|][c];
    }
  }

  /** A cached entry leads to a live raw producer with the wanted address. */
  lemma CachedEntryUsable(w: World, s: Id, dest: Destination)
    requires Sound(w) && CachesExact(w) && s in w.caches && UniqueDestName(dest) in w.caches[s].producers
    ensures var c := w.caches[s].producers[UniqueDestName(dest)];
            && c in w.live && c < |w.heap| && w.heap[c].CachedProducer?
            && var p := w.heap[c].rawProducer;
            && p in w.live && p < |w.heap| && w.heap[p].Producer? && SameAddress(w.heap[p].dest, dest)
            && s < |w.heap| && w.heap[s].PooledSession? && w.heap[p].session < |w.heap|
            && w.heap[w.heap[p].session].Session? && w.heap[w.heap[p].session].mode == w.heap[s].mode
  {
    var key := UniqueDestName(dest);
    assert ProducerEntry(w, s, key);
    var c := w.caches[s].producers[key];
    assert w.heap[c].rawProducer in Parents(w.heap[c]);
    ProducerKeyExact(w.heap[w.heap[c].rawProducer].dest, dest);
    assert Typed(w.heap, s);
  }

  lemma CachedConsumerUsable(w: World, s: Id, key: string)
    requires Sound(w) && CachesExact(w) && s in w.caches && key in w.caches[s].consumers
    ensures var c := w.caches[s].consumers[key];
            && c in w.live && c < |w.heap| && w.heap[c].CachedConsumer?
            && var p := w.heap[c].rawConsumer;
            && p in w.live && p < |w.heap| && w.heap[p].Consumer?
            && ConsumerKey(w.heap[p].dest, w.heap[p].selector, w.heap[p].noLocal) == key
            && s < |w.heap| && w.heap[s].PooledSession? && w.heap[p].session < |w.heap|
            && w.heap[w.heap[p].session].Session? && w.heap[w.heap[p].session].mode == w.heap[s].mode
  {
    assert ConsumerEntry(w, s, key);
    var c := w.caches[s].consumers[key];
    assert w.heap[c].rawConsumer in Parents(w.heap[c]);
    assert Typed(w.heap, s);
  }

  /** Setting the flags of a producer cached by `s` touches no other session's producers. */
  lemma FlagsInv(t: Template, w: World, p: Id, f: Flags)
    requires Inv(t, w)
    ensures Inv(t, w.(flags := w.flags[p := f]))
  {
    StructureKept(t, w, w.(flags := w.flags[p := f]));
  }

  lemma FlagsRel(t: Template, w: World, s: Id, c: Id, f: Flags)
    requires CachesExact(w) && IsOut(t, w, s) && s in w.caches
    requires c in w.live && c < |w.heap| && w.heap[c].CachedProducer? && w.heap[c].owner == s
    ensures WithinLease(t, w, t, w.(flags := w.flags[w.heap[c].rawProducer := f]), s, {})
  {
    var w1 := w.(flags := w.flags[w.heap[c].rawProducer := f]);
    forall x: Id | IsOut(t, w, x) && x != s ensures SessionKept(w, w1, x) {
      assert x in w.caches <==> LivePooled(w, x);
      forall k | k in w.caches[x].producers
        ensures var d := w.caches[x].producers[k];
                d < |w.heap| && w.heap[d].CachedProducer? && w.heap[d].rawProducer != w.heap[c].rawProducer
      {
        assert ProducerEntry(w, x, k);
      }
    }
  }

  // -- messages --

  /** A message that the template created is gone again. */
  ghost predicate MessageCameAndWent(w: World, w1: World) {
    && Sound(w1) && w1.heap == w.heap + [Message] && w1.live == w.live
    && w1.caches == w.caches && w1.delivered == w.delivered && w1.flags == w.flags && w1.asked == w.asked
  }

  lemma MessageInv(t: Template, w: World, w1: World)
    requires Inv(t, w) && MessageCameAndWent(w, w1)
    ensures Inv(t, w1)
  {
    ListsOfMessage(t.lists, w, w1);
    CachesOfMessage(w, w1);
    MemoOfMessage(t.memo, w, w1);
    PoolsOfMessage(t.pools, w, w1);
  }

  lemma MemoOfMessage(memo: Memo, w: World, w1: World)
    requires Sound(w) && MemoExact(memo, w) && MessageCameAndWent(w, w1)
    ensures MemoExact(memo, w1)
  {
    forall s, b, n | s in memo && n in memo[s].Names(b) ensures NameEntry(w1, memo[s].Names(b)[n], b, n) {
      assert NameEntry(w, memo[s].Names(b)[n], b, n);
    }
    forall s | s in memo ensures IsResolver(w1, memo[s].self, s) && LivePooled(w1, s) {
      assert IsResolver(w, memo[s].self, s) && LivePooled(w, s);
    }
  }

  lemma PoolsOfMessage(pools: seq<Option<PoolState>>, w: World, w1: World)
    requires Sound(w) && PoolsOwn(pools, w) && MessageCameAndWent(w, w1)
    ensures PoolsOwn(pools, w1)
  {
    assert forall s: Id :: LivePooled(w1, s) <==> LivePooled(w, s);
    forall m: nat | m < NUM_SESSION_POOLS && pools[m].Some? ensures PoolOwns(pools[m].value, m, w1) {
      assert PoolOwns(pools[m].value, m, w);
    }
  }

  lemma ListsOfMessage(l: Lists, w: World, w1: World)
    requires Sound(w) && ListsExact(l, w) && MessageCameAndWent(w, w1)
    ensures ListsExact(l, w1)
  {
  }

  lemma CachesOfMessage(w: World, w1: World)
    requires Sound(w) && CachesExact(w) && MessageCameAndWent(w, w1)
    ensures CachesExact(w1)
  {
    forall s, k | s in w1.caches && k in w1.caches[s].producers ensures ProducerEntry(w1, s, k) {
      assert ProducerEntry(w, s, k);
    }
    forall s, k | s in w1.caches && k in w1.caches[s].consumers ensures ConsumerEntry(w1, s, k) {
      assert ConsumerEntry(w, s, k);
    }
    forall s: Id ensures s in w1.caches <==> LivePooled(w1, s) {
      assert s in w.caches <==> LivePooled(w, s);
    }
    forall c | c in w1.live && c < |w1.heap| ensures Owned(w1, c) {
      assert Owned(w, c);
    }
  }

  lemma MessageDeletable(w: World, m: Id)
    requires Sound(w) && m in w.live && m < |w.heap| && w.heap[m].Message?
    ensures MayDelete(w, m)
  {
    forall x | x in w.live && x < |w.heap| ensures m !in Parents(w.heap[x]) {
      assert Typed(w.heap, x);
    }
  }

  lemma MemoSame(memo: Memo, w: World, w1: World)
    requires MemoExact(memo, w) && w1.heap == w.heap && w1.live == w.live
    ensures MemoExact(memo, w1)
  {
    forall s, b, n | s in memo && n in memo[s].Names(b) ensures NameEntry(w1, memo[s].Names(b)[n], b, n) {
      assert NameEntry(w, memo[s].Names(b)[n], b, n);
    }
    forall s | s in memo ensures IsResolver(w1, memo[s].self, s) && LivePooled(w1, s) {
      assert IsResolver(w, memo[s].self, s) && LivePooled(w, s);
    }
  }

  /** A received message goes to the client. */
  lemma MessageReceived(t: Template, w: World, w1: World)
    requires Inv(t, w) && Sound(w1)
    requires w1.heap == w.heap + [Message] && w1.live == w.live + {|w.heap|} && w1.freed == w.freed
    requires w1.caches == w.caches && w1.delivered == w.delivered + {|w.heap|}
    ensures Inv(t, w1)
  {
    var w2 := Alloc(w, Message);
    AllocSound(w, Message);
    ListsAlloc(t.lists, w, Message);
    AllocKeepsCaches(w, Message);
    MemoAlloc(t.memo, w, Message);
    PoolsAlloc(t.pools, w, Message);
    DefaultAlloc(t.defaultDestination, t.config, w, Message);
    CachesIgnore(w2, w1);
    PoolsSame(t.pools, w2, w1);
    MemoSame(t.memo, w2, w1);
  }
}
