/** DynamicDestinationResolver: destinations memoised by session, domain and name. */
module DestinationResolvers {
  import opened Wrappers
  import opened Destinations
  import opened Runtime
  import opened ResourceLifecycleManagers
  import opened PooledSessions

  /** One session's resolver: its own address and its two name maps. */
  datatype SessionResolver = SessionResolver(self: Id, topicMap: map<string, Id>, queueMap: map<string, Id>) {
    function Names(pubSub: bool): map<string, Id> { if pubSub then topicMap else queueMap }

    function Put(pubSub: bool, name: string, d: Id): SessionResolver {
      if pubSub then this.(topicMap := topicMap[name := d]) else this.(queueMap := queueMap[name := d])
    }
  }

  type Memo = map<Id, SessionResolver>

  function KindFor(pubSub: bool): Kind { if pubSub then Topic else Queue }

  ghost predicate IsResolver(w: World, r: Id, s: Id) {
    r in w.live && r < |w.heap| && w.heap[r] == ResolverObject(s)
  }

  /** The resolver objects are exactly those in the memo, each under its own session. */
  ghost predicate ResolversExact(memo: Memo, w: World) {
    && (forall s :: s in memo ==> IsResolver(w, memo[s].self, s))
    && (forall r :: r in w.live && r < |w.heap| && w.heap[r].ResolverObject? ==>
          w.heap[r].pooled in memo && memo[w.heap[r].pooled].self == r)
  }

  /** A memoised name leads to a live destination of that name and domain. */
  ghost predicate NameEntry(w: World, d: Id, pubSub: bool, name: string) {
    && d in w.live && d < |w.heap| && w.heap[d].ManagedDestination?
    && w.heap[d].dest == Named(KindFor(pubSub), name) && name != ""
  }

  ghost predicate NamesSound(memo: Memo, w: World) {
    forall s, b, n :: s in memo && n in memo[s].Names(b) ==> NameEntry(w, memo[s].Names(b)[n], b, n)
  }

  ghost predicate KeysPooled(memo: Memo, w: World) {
    forall s :: s in memo ==> LivePooled(w, s)
  }

  ghost predicate MemoExact(memo: Memo, w: World) {
    ResolversExact(memo, w) && NamesSound(memo, w) && KeysPooled(memo, w)
  }

  /** The memo and world once session `s` has a resolver. */
  function MemoWith(memo: Memo, w: World, s: Id): Memo {
    if s in memo then memo else memo[s := SessionResolver(|w.heap|, map[], map[])]
  }

  function WorldWith(memo: Memo, w: World, s: Id): World {
    if s in memo then w else Alloc(w, ResolverObject(s))
  }

  lemma NamesAlloc(memo: Memo, w: World, r: Resource)
    requires Sound(w) && NamesSound(memo, w)
    ensures NamesSound(memo, Alloc(w, r))
  {
    forall s, b, n | s in memo && n in memo[s].Names(b) ensures NameEntry(Alloc(w, r), memo[s].Names(b)[n], b, n) {
      assert NameEntry(w, memo[s].Names(b)[n], b, n);
    }
  }

  lemma KeysAlloc(memo: Memo, w: World, r: Resource)
    requires Sound(w) && KeysPooled(memo, w)
    ensures KeysPooled(memo, Alloc(w, r))
  {
    forall s | s in memo ensures LivePooled(Alloc(w, r), s) { assert LivePooled(w, s); }
  }

  lemma ResolversAlloc(memo: Memo, w: World, r: Resource)
    requires Sound(w) && ResolversExact(memo, w) && !r.ResolverObject?
    ensures ResolversExact(memo, Alloc(w, r))
  {
    forall s | s in memo ensures IsResolver(Alloc(w, r), memo[s].self, s) { assert IsResolver(w, memo[s].self, s); }
  }

  lemma MemoAlloc(memo: Memo, w: World, r: Resource)
    requires Sound(w) && MemoExact(memo, w) && !r.ResolverObject?
    ensures MemoExact(memo, Alloc(w, r))
  {
    NamesAlloc(memo, w, r);
    KeysAlloc(memo, w, r);
    ResolversAlloc(memo, w, r);
  }

  lemma NewResolverNames(memo: Memo, w: World, s: Id)
    requires NamesSound(memo, w) && s !in memo
    ensures forall r: Id :: NamesSound(memo[s := SessionResolver(r, map[], map[])], w)
  {
    forall r: Id ensures NamesSound(memo[s := SessionResolver(r, map[], map[])], w) {
      var memo' := memo[s := SessionResolver(r, map[], map[])];
      forall t, b, n | t in memo' && n in memo'[t].Names(b) ensures NameEntry(w, memo'[t].Names(b)[n], b, n) {
        assert t in memo && NameEntry(w, memo[t].Names(b)[n], b, n);
      }
    }
  }

  lemma NewResolverExact(memo: Memo, w: World, s: Id)
    requires Sound(w) && ResolversExact(memo, w) && s !in memo
    ensures ResolversExact(memo[s := SessionResolver(|w.heap|, map[], map[])], Alloc(w, ResolverObject(s)))
  {
    var memo', w' := memo[s := SessionResolver(|w.heap|, map[], map[])], Alloc(w, ResolverObject(s));
    forall t | t in memo' ensures IsResolver(w', memo'[t].self, t) {
      if t in memo { assert IsResolver(w, memo[t].self, t); }
    }
  }

  lemma WithResolverExact(memo: Memo, w: World, s: Id)
    requires Sound(w) && MemoExact(memo, w) && LivePooled(w, s)
    ensures Sound(WorldWith(memo, w, s)) && MemoExact(MemoWith(memo, w, s), WorldWith(memo, w, s))
  {
    if s !in memo {
      AllocSound(w, ResolverObject(s));
      NamesAlloc(memo, w, ResolverObject(s));
      NewResolverNames(memo, Alloc(w, ResolverObject(s)), s);
      KeysAlloc(memo, w, ResolverObject(s));
      NewResolverExact(memo, w, s);
    }
  }

  /** The world and memo after a destination is created on session `s` under `name`. */
  function WithName(memo: Memo, w: World, s: Id, pubSub: bool, name: string): (Memo, World)
    requires s in memo && s < |w.heap| && w.heap[s].PooledSession?
  {
    (memo[s := memo[s].Put(pubSub, name, |w.heap|)],
     Alloc(w, ManagedDestination(w.heap[s].raw, Named(KindFor(pubSub), name))))
  }

  lemma DestinationAllocable(w: World, s: Id, d: Destination)
    requires Sound(w) && LivePooled(w, s)
    ensures MayAlloc(w, ManagedDestination(w.heap[s].raw, d))
  {
    RawSessionLive(w, s);
  }

  lemma PutNames(memo: Memo, w: World, s: Id, pubSub: bool, name: string, d: Id)
    requires NamesSound(memo, w) && s in memo && NameEntry(w, d, pubSub, name)
    ensures NamesSound(memo[s := memo[s].Put(pubSub, name, d)], w)
  {
    var memo' := memo[s := memo[s].Put(pubSub, name, d)];
    forall t, b, n | t in memo' && n in memo'[t].Names(b) ensures NameEntry(w, memo'[t].Names(b)[n], b, n) {
      if !(t == s && b == pubSub && n == name) { assert NameEntry(w, memo[t].Names(b)[n], b, n); }
    }
  }

  lemma PutResolvers(memo: Memo, w: World, s: Id, pubSub: bool, name: string, d: Id)
    requires ResolversExact(memo, w) && KeysPooled(memo, w) && s in memo
    ensures var memo' := memo[s := memo[s].Put(pubSub, name, d)]; ResolversExact(memo', w) && KeysPooled(memo', w)
  {
    var memo' := memo[s := memo[s].Put(pubSub, name, d)];
    forall t | t in memo' ensures IsResolver(w, memo'[t].self, t) && LivePooled(w, t) {
      assert IsResolver(w, memo[t].self, t) && LivePooled(w, t);
    }
  }

  lemma WithNameExact(memo: Memo, w: World, s: Id, pubSub: bool, name: string)
    requires Sound(w) && MemoExact(memo, w) && s in memo && LivePooled(w, s) && name != ""
    ensures var (memo', w') := WithName(memo, w, s, pubSub, name); Sound(w') && MemoExact(memo', w')
  {
    var r := ManagedDestination(w.heap[s].raw, Named(KindFor(pubSub), name));
    DestinationAllocable(w, s, Named(KindFor(pubSub), name));
    AllocSound(w, r);
    MemoAlloc(memo, w, r);
    PutNames(memo, Alloc(w, r), s, pubSub, name, |w.heap|);
    PutResolvers(memo, Alloc(w, r), s, pubSub, name, |w.heap|);
  }

  /** What resolving `name` for session `s` does: an empty name throws at once; otherwise the
      session gets a resolver if it has none, and the name a destination if it has none. */
  ghost predicate Resolution(m0: Memo, w0: World, l0: Lists, m1: Memo, w1: World, l1: Lists,
                             s: Id, name: string, pubSub: bool, r: Option<DestinationRef>)
    requires LivePooled(w0, s)
  {
    var m, w := MemoWith(m0, w0, s), WorldWith(m0, w0, s);
    if name == "" then
      r.None? && m1 == m0 && w1 == w0 && l1 == l0
    else if name in m[s].Names(pubSub) then
      && r == Some(DestinationRef(Named(KindFor(pubSub), name), Some(m[s].Names(pubSub)[name])))
      && m1 == m && w1 == w && l1 == l0
    else if r.None? then
      m1 == m && w1 == w.(faults := w.faults + 1) && l1 == l0
    else
      && r.value == DestinationRef(Named(KindFor(pubSub), name), Some(|w.heap|))
      && w.heap[s] == w0.heap[s]
      && (m1, w1) == WithName(m, w, s, pubSub, name)
      && l1 == AddTo(l0, w1.heap[|w.heap|], |w.heap|)
  }

  class DynamicDestinationResolver {
    const rt: CmsRuntime
    var sessionResolverMap: Memo
    var resourceLifecycleManager: ResourceLifecycleManager?

    constructor (rt: CmsRuntime)
      ensures this.rt == rt && sessionResolverMap == map[] && resourceLifecycleManager == null
    {
      this.rt := rt;
      sessionResolverMap := map[];
      resourceLifecycleManager := null;
    }

    /** Forgets what belongs to the old manager before adopting the new one. */
    method Init(mgr: ResourceLifecycleManager)
      requires Sound(rt.w) && RowsExact(rt.w) && ResolversExact(sessionResolverMap, rt.w)
      modifies this, rt
      ensures Sound(rt.w) && sessionResolverMap == map[] && resourceLifecycleManager == mgr
      ensures ResolversFreed(old(rt.w), rt.w)
      ensures old(sessionResolverMap) == map[] ==> rt.w == old(rt.w)
    {
      Destroy();
      resourceLifecycleManager := mgr;
    }

    /** Deletes every session resolver and empties the memo. */
    method Destroy()
      requires Sound(rt.w) && RowsExact(rt.w) && ResolversExact(sessionResolverMap, rt.w)
      modifies this`sessionResolverMap, rt
      ensures Sound(rt.w) && sessionResolverMap == map[]
      ensures ResolversFreed(old(rt.w), rt.w)
      ensures old(sessionResolverMap) == map[] ==> rt.w == old(rt.w)
    {
      DeleteResolvers(rt, sessionResolverMap);
      sessionResolverMap := map[];
    }

    method ResolveDestinationName(s: Id, name: string, pubSub: bool) returns (r: Option<DestinationRef>)
      requires resourceLifecycleManager != null
      requires Sound(rt.w) && MemoExact(sessionResolverMap, rt.w) && LivePooled(rt.w, s)
      modifies this`sessionResolverMap, rt, resourceLifecycleManager
      ensures Sound(rt.w)
      ensures Resolution(old(sessionResolverMap), old(rt.w), old(resourceLifecycleManager.Contents()),
                         sessionResolverMap, rt.w, resourceLifecycleManager.Contents(), s, name, pubSub, r)
      ensures r.Some? ==> r.value.dest == Destination(if pubSub then Topic else Queue, PhysicalName(name)) && name != ""
    {
      if name == "" { return None; }
      WithResolverExact(sessionResolverMap, rt.w, s);
      if s !in sessionResolverMap {
        var self := rt.New(ResolverObject(s));
        sessionResolverMap := sessionResolverMap[s := SessionResolver(self, map[], map[])];
      }
      r := GetDestination(s, name, pubSub);
    }

    /** The session's topic or queue of that name, found or created. */
    method GetDestination(s: Id, name: string, pubSub: bool) returns (r: Option<DestinationRef>)
      requires resourceLifecycleManager != null && s in sessionResolverMap && name != ""
      requires Sound(rt.w) && LivePooled(rt.w, s)
      modifies this`sessionResolverMap, rt, resourceLifecycleManager
      ensures Sound(rt.w)
      ensures Lookup(old(sessionResolverMap), old(rt.w), old(resourceLifecycleManager.Contents()),
                     sessionResolverMap, rt.w, resourceLifecycleManager.Contents(), s, name, pubSub, r)
      ensures r.Some? ==> r.value.dest == Destination(if pubSub then Topic else Queue, PhysicalName(name))
    {
      var names := sessionResolverMap[s].Names(pubSub);
      var dest := Named(KindFor(pubSub), name);
      if name in names {
        return Some(DestinationRef(dest, Some(names[name])));
      }
      DestinationAllocable(rt.w, s, dest);
      var d := rt.Create(ManagedDestination(rt.w.heap[s].raw, dest));
      if d.None? { return None; }
      resourceLifecycleManager.AddDestination(d.value);
      sessionResolverMap := sessionResolverMap[s := sessionResolverMap[s].Put(pubSub, name, d.value)];
      r := Some(DestinationRef(dest, d));
    }
  }

  /** Resolution once the session has its resolver. */
  ghost predicate Lookup(m: Memo, w: World, l: Lists, m1: Memo, w1: World, l1: Lists,
                         s: Id, name: string, pubSub: bool, r: Option<DestinationRef>)
    requires s in m && LivePooled(w, s)
  {
    if name in m[s].Names(pubSub) then
      && r == Some(DestinationRef(Named(KindFor(pubSub), name), Some(m[s].Names(pubSub)[name])))
      && m1 == m && w1 == w && l1 == l
    else if r.None? then
      m1 == m && w1 == w.(faults := w.faults + 1) && l1 == l
    else
      && r.value == DestinationRef(Named(KindFor(pubSub), name), Some(|w.heap|))
      && (m1, w1) == WithName(m, w, s, pubSub, name)
      && l1 == AddTo(l, w1.heap[|w.heap|], |w.heap|)
  }

  /** Exactly the session resolvers are freed. */
  ghost predicate ResolversFreed(w0: World, w1: World) {
    && w1 == w0.(live := w1.live, freed := w1.freed)
    && forall id :: id in w1.live <==> (id in w0.live && (id < |w0.heap| ==> !w0.heap[id].ResolverObject?))
  }

  lemma ResolverDeletable(w: World, r: Id)
    requires Sound(w) && r in w.live && w.heap[r].ResolverObject?
    ensures MayDelete(w, r)
  {
    forall x | x in w.live && x < |w.heap| ensures r !in Parents(w.heap[x]) {
      assert Typed(w.heap, x);
    }
  }

  /** The resolvers of the sessions in `keys` are left. */
  ghost predicate ResolversLeft(w0: World, w: World, keys: set<Id>) {
    && w == w0.(live := w.live, freed := w.freed)
    && forall id :: id in w.live <==>
         (id in w0.live && (id < |w0.heap| && w0.heap[id].ResolverObject? ==> w0.heap[id].pooled in keys))
  }

  lemma OneResolverLess(memo: Memo, w0: World, w: World, keys: set<Id>, s: Id)
    requires RowsExact(w0) && ResolversExact(memo, w0) && Sound(w)
    requires ResolversLeft(w0, w, keys) && keys <= memo.Keys && s in keys
    ensures MayDelete(w, memo[s].self) && ResolversLeft(w0, Free(w, memo[s].self), keys - {s})
  {
    var self := memo[s].self;
    assert IsResolver(w0, self, s);
    ResolverDeletable(w, self);
    assert self !in w.caches by { assert self in w0.caches ==> LivePooled(w0, self); }
    assert w.caches - {self} == w.caches;
  }

  method DeleteResolvers(rt: CmsRuntime, memo: Memo)
    requires Sound(rt.w) && RowsExact(rt.w) && ResolversExact(memo, rt.w)
    modifies rt
    ensures Sound(rt.w) && ResolversFreed(old(rt.w), rt.w)
    ensures memo == map[] ==> rt.w == old(rt.w)
  {
    var keys := memo.Keys;
    while keys != {}
      invariant Sound(rt.w) && keys <= memo.Keys
      invariant ResolversLeft(old(rt.w), rt.w, keys)
      invariant keys == memo.Keys ==> rt.w == old(rt.w)
      decreases |keys|
    {
      var s :| s in keys;
      OneResolverLess(memo, old(rt.w), rt.w, keys, s);
      rt.Delete(memo[s].self);
      keys := keys - {s};
    }
  }
}
