/** What each step of a template call does, on values: the glue between the template's methods
    and the relations of a run. */
module TemplateSteps {
  import opened Wrappers
  import opened Destinations
  import opened CacheKeys
  import opened Runtime
  import opened ResourceLifecycleManagers
  import opened PooledSessions
  import opened SessionPools
  import opened DestinationResolvers
  import opened Commands
  import opened TemplateState
  import opened TemplateRuns

  /** The destination a producer or consumer is wanted for. */
  function Wanted(dest: Option<DestinationRef>, v: Settings): Option<Destination> {
    if dest.Some? then Some(dest.value.dest) else Resolve(DefaultTarget, v)
  }

  function SendingTo(d: Option<Destination>): set<Want> {
    if d.Some? then {Sending(d.value)} else {}
  }

  function ReceivingFrom(d: Option<Destination>, selector: string, noLocal: bool): set<Want> {
    if d.Some? then {Receiving(d.value, selector, noLocal)} else {}
  }

  /** Session `s` caches `c` for `dest`, with flags from the properties; other leases are
      untouched. */
  ghost predicate ProducerReady(t0: Template, w0: World, t1: Template, w1: World, s: Id, c: Id, dest: Destination) {
    && WithinLease(t0, w0, t1, w1, s, {Sending(dest)}) && Caching(w1, s, c, dest, ProducerFlags(t0.config))
  }

  /** The destination to use, chosen without anyone noticing. */
  ghost predicate Chosen(t0: Template, w0: World, t1: Template, w1: World, dest: Option<DestinationRef>, d: DestinationRef) {
    && Silent(t0, w0, t1, w1, {}, {}) && t1.config == t0.config
    && LiveRef(w1, d) && Some(d.dest) == Wanted(dest, View(t0))
  }

  lemma OutStays(t0: Template, w0: World, t1: Template, w1: World, s: Id)
    requires IsOut(t0, w0, s) && Silent(t0, w0, t1, w1, {}, {})
    ensures IsOut(t1, w1, s)
  {
  }

  lemma CollapsedAfter(t0: Template, w0: World, t1: Template, w1: World, t2: Template, w2: World,
                       except: set<Id>, wants: set<Want>)
    requires Silent(t0, w0, t1, w1, except, wants) && Collapsed(t1, w1, t2, w2, wants)
    ensures Collapsed(t0, w0, t2, w2, wants)
  {
    GrewTrans(w0, w1, w2);
  }

  lemma ReadyAfter(t0: Template, w0: World, t1: Template, w1: World, t2: Template, w2: World, s: Id, c: Id, dest: Destination)
    requires Silent(t0, w0, t1, w1, {}, {}) || Silent(t0, w0, t1, w1, {s}, {Sending(dest)})
    requires t1.config == t0.config && ProducerReady(t1, w1, t2, w2, s, c, dest)
    ensures ProducerReady(t0, w0, t2, w2, s, c, dest)
  {
    SilentTrans(t0, w0, t1, w1, t2, w2, {s}, {Sending(dest)});
  }

  lemma RowOf(t: Template, w: World, s: Id)
    requires Inv(t, w) && IsOut(t, w, s)
    ensures Sound(w) && CachesExact(w) && s in w.caches
  {
    assert s in w.caches <==> LivePooled(w, s);
  }

  /** What the resolver needs to serve this template. */
  lemma ResolverReady(t: Template, w: World, s: Id)
    requires Inv(t, w) && t.initialized && IsOut(t, w, s)
    ensures Sound(w) && MemoExact(t.memo, w) && t.adopted
  {
  }

  /** Setting flags is no part of the ownership structure, and nobody notices a failure. */
  lemma FlagsKept(t: Template, w: World, w1: World)
    requires Inv(t, w) && w1 == w.(flags := w1.flags, faults := w1.faults) && w.faults <= w1.faults
    ensures Inv(t, w1) && Grew(w, w1) && w1.events == w.events && AsksFor(w, w1, {})
  {
    StructureKept(t, w, w1);
  }

  /** Where the flags of a cached entry are kept. */
  lemma FlagsUsable(t: Template, w: World, s: Id, c: Id, dest: Destination)
    requires Inv(t, w) && s in w.caches && UniqueDestName(dest) in w.caches[s].producers
    requires w.caches[s].producers[UniqueDestName(dest)] == c
    ensures Sound(w) && c in w.live && c < |w.heap| && w.heap[c].CachedProducer?
    ensures w.heap[c].rawProducer in w.live && w.heap[c].rawProducer < |w.heap| && w.heap[w.heap[c].rawProducer].Producer?
  {
    CachedEntryUsable(w, s, dest);
  }

  lemma FlagsReady(t: Template, w: World, s: Id, c: Id, dest: Destination)
    requires Inv(t, w) && IsOut(t, w, s) && s in w.caches
    requires UniqueDestName(dest) in w.caches[s].producers && w.caches[s].producers[UniqueDestName(dest)] == c
    ensures c < |w.heap| && w.heap[c].CachedProducer?
    ensures var w1 := w.(flags := w.flags[w.heap[c].rawProducer := ProducerFlags(t.config)]);
            Inv(t, w1) && ProducerReady(t, w, t, w1, s, c, dest)
  {
    CachedEntryUsable(w, s, dest);
    assert ProducerEntry(w, s, UniqueDestName(dest));
    FlagsInv(t, w, w.heap[c].rawProducer, ProducerFlags(t.config));
    FlagsRel(t, w, s, c, ProducerFlags(t.config));
  }

  /** A request alone changes nothing but the record of requests. */
  lemma AskedSilent(t: Template, w: World, s: Id, want: Want)
    requires Inv(t, w) && LivePooled(w, s)
    ensures Inv(t, Asked(w, s, want)) && Silent(t, w, t, Asked(w, s, want), {}, {want})
    ensures Grew(w, Asked(w, s, want))
  {
    var w1 := Asked(w, s, want);
    StructureKept(t, w, w1);
    QuietKeeps(t, w, w1);
  }

  lemma CachedProducerRel(t0: Template, w0: World, t1: Template, w1: World, s: Id, d: DestinationRef, c: Option<Id>)
    requires Inv(t0, w0) && IsOut(t0, w0, s) && LiveRef(w0, d) && s in w0.caches
    requires t1 == t0.(lists := t1.lists)
    requires UniqueDestName(d.dest) in w0.caches[s].producers ==>
               c == Some(w0.caches[s].producers[UniqueDestName(d.dest)]) && w1 == Asked(w0, s, Sending(d.dest)) && t1 == t0
    requires UniqueDestName(d.dest) !in w0.caches[s].producers ==>
               ProducerCreated(Asked(w0, s, Sending(d.dest)), w1, t0.lists, t1.lists, s, d, c)
    ensures Inv(t1, w1) && w0.events == w1.events && Grew(w0, w1) && AsksFor(w0, w1, {Sending(d.dest)})
    ensures c.None? ==> t1 == t0 && w1.faults == w0.faults + 1
    ensures c.Some? ==> WithinLease(t0, w0, t1, w1, s, {Sending(d.dest)}) && s in w1.caches
    ensures c.Some? ==> UniqueDestName(d.dest) in w1.caches[s].producers
                        && w1.caches[s].producers[UniqueDestName(d.dest)] == c.value
  {
    hide Inv, UniqueDestName, ProducersSound, ConsumersSound, WrappersOwned, RawUnshared, Sound;
    var w := Asked(w0, s, Sending(d.dest));
    AskedSilent(t0, w0, s, Sending(d.dest));
    RowOf(t0, w, s);
    if UniqueDestName(d.dest) !in w0.caches[s].producers {
      if c.None? {
        StructureKept(t0, w, w1);
      } else {
        ProducerInv(t0, w, s, d);
        ProducerRel(t0, w, s, d);
        SilentTrans(t0, w0, t0, w, t1, w1, {s}, {Sending(d.dest)});
      }
    }
  }

  /** A target became a destination reference; nobody could see it happen. */
  ghost predicate ResolvedTo(t0: Template, w0: World, t1: Template, w1: World, target: Target, d: DestinationRef) {
    && Silent(t0, w0, t1, w1, {}, {}) && t1.config == t0.config
    && LiveRef(w1, d) && Some(d.dest) == Resolve(target, View(t0))
  }

  lemma ResolutionDone(t: Template, w: World, t1: Template, w1: World, s: Id, name: string, r: Option<DestinationRef>)
    requires Inv(t, w) && LivePooled(w, s) && t.initialized
    requires t1 == t.(memo := t1.memo, lists := t1.lists)
    requires Resolution(t.memo, w, t.lists, t1.memo, w1, t1.lists, s, name, t.config.pubSubDomain, r)
    ensures Inv(t1, w1) && ResolvedName(t, w, t1, w1, name, r)
  {
    ResolutionInv(t, w, t1.memo, w1, t1.lists, s, name, r);
    ResolutionRel(t, w, t1.memo, w1, t1.lists, s, name, r);
  }

  lemma DefaultRemembered(t0: Template, w0: World, t1: Template, w1: World, d: DestinationRef)
    requires t0.defaultDestination.None?
    requires Inv(t1, w1) && ResolvedName(t0, w0, t1, w1, t0.config.defaultDestinationName, Some(d))
    ensures Inv(t1.(defaultDestination := Some(d)), w1)
    ensures ResolvedTo(t0, w0, t1.(defaultDestination := Some(d)), w1, DefaultTarget, d)
  {
  }

  lemma DefaultKnown(t: Template, w: World)
    requires Inv(t, w) && t.defaultDestination.Some?
    ensures ResolvedTo(t, w, t, w, DefaultTarget, t.defaultDestination.value)
  {
    SilentSame(t, t, w);
  }

  lemma TookAfter(t0: Template, w0: World, t1: Template, w1: World, t2: Template, w2: World, s: Id, m: PoolMode)
    requires Silent(t0, w0, t1, w1, {}, {}) && TookSession(t1, w1, t2, w2, s, m)
    ensures TookSession(t0, w0, t2, w2, s, m)
  {
    KeepsTrans(t0, w0, t1, w1, t2, w2, {});
  }

  /** Taking from a pool that exists, in terms of the state before. */
  lemma TakeOutcome(t: Template, w: World, t1: Template, w1: World, m: PoolMode, p1: PoolState, s: Option<Id>)
    requires Inv(t, w) && t.pools[m].Some? && t1 == t.(pools := t1.pools, lists := t1.lists)
    requires var p := t.pools[m].value;
             && (s.Some? ==> s.value == Taken(p.pool, |w.heap| + 1))
             && t1.pools == t.pools[m := Some(p1)]
             && p1 == p.(pool := if s.Some? then Take(p.pool, |w.heap| + 1) else p.pool)
             && (s.None? ==> p.pool.available == [])
             && w1 == (if p.pool.available != [] then w
                       else if s.None? then w.(faults := w.faults + 1) else WithSession(w, p.connection, m))
             && t1.lists == (if p.pool.available != [] || s.None? then t.lists
                             else AddTo(t.lists, Session(p.connection, m), |w.heap|))
    ensures s.Some? ==> TookSession(t, w, t1, w1, s.value, m)
    ensures s.None? ==> t1 == t && Destroyable(t, w1) && w1 == w.(faults := w.faults + 1)
  {
    if s.None? {
      assert t.pools[m := t.pools[m]] == t.pools;
      FaultDestroyable(t, w, w1);
    } else if t.pools[m].value.pool.available == [] {
      NewSessionTakenRel(t, w, m);
    } else {
      IdleTakenRel(t, w, m);
    }
  }

  lemma SilentSame(t0: Template, t1: Template, w: World)
    requires Inv(t0, w) && t1 == t0.(initialized := t1.initialized, adopted := t1.adopted)
    ensures Silent(t0, w, t1, w, {}, {})
  {
    AddedKeeps(t0, w, t1, w, {});
  }

  /** Freeing nothing changes nothing. */
  lemma NothingToFree(w: World)
    ensures FreeAll(w.(closed := w.closed + SetOf([])), DeletionOrder(NO_RESOURCES)) == w
  {
    assert DeletionOrder(NO_RESOURCES) == [];
    assert w.closed + SetOf([]) == w.closed && w.live - SetOf([]) == w.live && w.caches - SetOf([]) == w.caches;
    assert w.freed + [] == w.freed;
  }

  lemma DestroyableInv(t: Template, w: World)
    requires Inv(t, w)
    ensures Destroyable(t, w) && Sound(w)
  {
  }

  lemma FaultDestroyable(t: Template, w: World, w1: World)
    requires Destroyable(t, w) && (w1 == w || w1 == w.(faults := w.faults + 1))
    ensures Destroyable(t, w1)
  {
    if w1 != w {
      CachesIgnore(w, w1);
      forall s | s in t.memo ensures IsResolver(w1, t.memo[s].self, s) { assert IsResolver(w, t.memo[s].self, s); }
      PoolsSame(t.pools, w, w1);
    }
  }

  lemma FaultGrew(w0: World, w1: World, w2: World)
    requires w1 == w0 || w1 == Alloc(w0, Connection)
    requires w2 == w1 || w2 == w1.(faults := w1.faults + 1)
    ensures Grew(w0, w2) && w2.events == w0.events
  {
  }

  lemma ConnectedRel(t: Template, w: World)
    requires Inv(t, w) && t.connection.None?
    ensures Silent(t, w, t.(connection := Some(|w.heap|), lists := AddTo(t.lists, Connection, |w.heap|),
                            pools := EmptyPools(|w.heap|)), Alloc(w, Connection), {}, {})
  {
    NoConnectionNoSessions(t, w);
  }

  lemma ConnectedPools(t: Template, w: World, m: PoolMode)
    requires Inv(t, w) && t.connection.Some?
    ensures |t.pools| == NUM_SESSION_POOLS && t.pools[m].Some?
    ensures t.pools[m].value.mode == m && LiveConnection(w, t.pools[m].value.connection)
  {
    assert t.pools[m as nat].Some?;
    assert PoolOwns(t.pools[m].value, m as nat, w);
    PoolConnectionLive(t, w, m);
  }

  lemma PoolDeletable(t: Template, w: World, m: nat)
    requires Destroyable(t, w) && m < NUM_SESSION_POOLS && t.pools[m].Some?
    ensures Sound(w) && CachesExact(w)
    ensures var p := t.pools[m].value.pool;
            Distinct(p.sessions) && forall s :: s in p.sessions ==> s in w.caches
  {
    assert PoolOwns(t.pools[m].value, m, w);
  }

  // ---- Consumers ----

  /** Session `s` caches `c` for this destination, selector and noLocal flag. */
  ghost predicate CachingConsumer(w: World, s: Id, c: Id, key: string) {
    s in w.caches && key in w.caches[s].consumers && w.caches[s].consumers[key] == c
  }

  ghost predicate ConsumerReady(t0: Template, w0: World, t1: Template, w1: World, s: Id, c: Id,
                                dest: Destination, selector: string, noLocal: bool) {
    && WithinLease(t0, w0, t1, w1, s, {Receiving(dest, selector, noLocal)})
    && CachingConsumer(w1, s, c, ConsumerKey(dest, selector, noLocal))
  }

  lemma ConsumerReadyAfter(t0: Template, w0: World, t1: Template, w1: World, t2: Template, w2: World, s: Id, c: Id,
                           dest: Destination, selector: string, noLocal: bool)
    requires Silent(t0, w0, t1, w1, {}, {}) && t1.config == t0.config
    requires ConsumerReady(t1, w1, t2, w2, s, c, dest, selector, noLocal)
    ensures ConsumerReady(t0, w0, t2, w2, s, c, dest, selector, noLocal)
  {
    SilentTrans(t0, w0, t1, w1, t2, w2, {s}, {Receiving(dest, selector, noLocal)});
  }

  lemma CachedConsumerRel(t0: Template, w0: World, t1: Template, w1: World, s: Id, d: DestinationRef,
                          selector: string, noLocal: bool, c: Option<Id>)
    requires Inv(t0, w0) && IsOut(t0, w0, s) && LiveRef(w0, d) && s in w0.caches
    requires t1 == t0.(lists := t1.lists)
    requires ConsumerKey(d.dest, selector, noLocal) in w0.caches[s].consumers ==>
               && c == Some(w0.caches[s].consumers[ConsumerKey(d.dest, selector, noLocal)])
               && w1 == Asked(w0, s, Receiving(d.dest, selector, noLocal)) && t1 == t0
    requires ConsumerKey(d.dest, selector, noLocal) !in w0.caches[s].consumers ==>
               ConsumerCreated(Asked(w0, s, Receiving(d.dest, selector, noLocal)), w1, t0.lists, t1.lists,
                               s, d, selector, noLocal, c)
    ensures Inv(t1, w1) && w0.events == w1.events && Grew(w0, w1)
    ensures AsksFor(w0, w1, {Receiving(d.dest, selector, noLocal)})
    ensures c.None? ==> t1 == t0 && w1.faults == w0.faults + 1
    ensures c.Some? ==> ConsumerReady(t0, w0, t1, w1, s, c.value, d.dest, selector, noLocal)
  {
    hide Inv, ConsumerKey, ProducersSound, ConsumersSound, WrappersOwned, RawUnshared, Sound;
    var want := Receiving(d.dest, selector, noLocal);
    var w := Asked(w0, s, want);
    AskedSilent(t0, w0, s, want);
    RowOf(t0, w, s);
    if ConsumerKey(d.dest, selector, noLocal) !in w0.caches[s].consumers {
      if c.None? {
        StructureKept(t0, w, w1);
      } else {
        ConsumerInv(t0, w, s, d, selector, noLocal);
        ConsumerRel(t0, w, s, d, selector, noLocal);
        SilentTrans(t0, w0, t0, w, t1, w1, {s}, {want});
      }
    }
  }

  /** A step inside the lease leaves the session's identity alone. */
  lemma SessionSame(t0: Template, w0: World, t1: Template, w1: World, s: Id)
    requires IsOut(t0, w0, s) && Grew(w0, w1)
    ensures w1.heap[s] == w0.heap[s]
  {
    assert w1.heap[s] == w1.heap[..|w0.heap|][s];
  }

  lemma HandedMatches(t0: Template, w0: World, t1: Template, w1: World, s: Id, c: Id, h: Handed)
    requires IsOut(t0, w0, s) && w0.heap[s].mode == h.mode && h.flags == ProducerFlags(t0.config)
    requires ProducerReady(t0, w0, t1, w1, s, c, h.dest)
    ensures ScopeMatches(t1, w1, Some(Scope(s, c)), Some(h))
  {
    SessionSame(t0, w0, t1, w1, s);
  }

  lemma CollapsedTwice(t0: Template, w0: World, t1: Template, w1: World, t2: Template, w2: World, wants: set<Want>)
    requires Collapsed(t0, w0, t1, w1, wants) && Collapsed(t1, w1, t2, w2, {})
    ensures Collapsed(t0, w0, t2, w2, wants)
  {
    GrewTrans(w0, w1, w2);
  }

  /** What is sent does not depend on the message that carries it. */
  lemma SameSend(w: World, wrapper: Id, payload: int, qos: Option<Qos>)
    requires Sound(w) && wrapper in w.live && w.heap[wrapper].CachedProducer? && Sound(Alloc(w, Message))
    ensures SentThrough(Alloc(w, Message), wrapper, payload, qos) == SentThrough(w, wrapper, payload, qos)
  {
    assert WentThrough(w.heap, SentThrough(w, wrapper, payload, qos));
  }

  // ---- Provider calls that the broker sees ----

  /** One provider call: it did what was asked for and nothing else, or it failed and did
      nothing at all. */
  ghost predicate Did(t0: Template, w0: World, t1: Template, w1: World, wanted: Event, ok: bool) {
    && Keeps(t0, w0, t1, w1, {}) && SameLeases(t0, t1) && View(t1) == View(t0) && AsksFor(w0, w1, {})
    && w1.faults == w0.faults + (if ok then 0 else 1)
    && if ok then |w1.events| == |w0.events| + 1 && Serves(w1.events[|w0.events|].event, wanted)
       else w1.events == w0.events
  }

  /** Growth that leaves caches and flags alone. */
  lemma QuietKeeps(t: Template, w: World, w1: World)
    requires RowsExact(w) && Sound(w) && |t.pools| == NUM_SESSION_POOLS
    requires Grew(w, w1) && NothingLost(w, w1) && w.live <= w1.live && w1.caches == w.caches && w1.flags == w.flags
    ensures Keeps(t, w, t, w1, {}) && SameLeases(t, t)
  {
    forall s: Id | IsOut(t, w, s) ensures IsOut(t, w1, s) && SessionKept(w, w1, s) {
      assert w1.heap[s] == w1.heap[..|w.heap|][s];
      assert s in w.caches <==> LivePooled(w, s);
    }
  }

  /** What a send through the producer cached for `h.dest` is. */
  lemma SendServes(t: Template, w: World, s: Id, c: Id, h: Handed, payload: int, qos: Option<Qos>)
    requires Inv(t, w) && Caching(w, s, c, h.dest, h.flags)
    requires s < |w.heap| && w.heap[s].PooledSession? && w.heap[s].mode == h.mode
    ensures Sound(w) && RowsExact(w) && c in w.live && w.heap[c].CachedProducer?
    ensures Serves(SentThrough(w, c, payload, qos).event, Sent(h.dest, payload, qos, h.flags, h.mode))
  {
    CachedEntryUsable(w, s, h.dest);
  }

  lemma ReceiveServes(t: Template, w: World, s: Id, c: Id, dest: Destination, selector: string, noLocal: bool, timeout: Timeout)
    requires Inv(t, w) && CachingConsumer(w, s, c, ConsumerKey(dest, selector, noLocal))
    requires s < |w.heap| && w.heap[s].PooledSession?
    ensures Sound(w) && c in w.live && c < |w.heap| && w.heap[c].CachedConsumer?
    ensures Serves(ReceivedThrough(w, c, timeout).event, Received(dest, selector, noLocal, timeout, w.heap[s].mode))
  {
    CachedConsumerUsable(w, s, ConsumerKey(dest, selector, noLocal));
  }

  /** A message is created, sent and deleted, whatever fails. */
  ghost predicate MessageSent(w: World, w1: World, e: Delivery, ok: bool) {
    || (MessageCameAndWent(w, w1) && ok && w1.events == w.events + [e] && w1.faults == w.faults)
    || (MessageCameAndWent(w, w1) && !ok && w1.events == w.events && w1.faults == w.faults + 1)
    || (!ok && w1 == w.(faults := w.faults + 1))
  }

  method SendNewMessage(rt: CmsRuntime, wrapper: Id, payload: int, qos: Option<Qos>) returns (ok: bool)
    requires Sound(rt.w) && RowsExact(rt.w) && wrapper in rt.w.live && rt.w.heap[wrapper].CachedProducer?
    modifies rt
    ensures Sound(rt.w) && MessageSent(old(rt.w), rt.w, SentThrough(old(rt.w), wrapper, payload, qos), ok)
  {
    ghost var w0 := rt.w;
    var message := rt.Create(Message);
    if message.None? {
      return false;
    }
    SameSend(w0, wrapper, payload, qos);
    ok := rt.Send(wrapper, payload, qos);
    MessageDeletable(rt.w, message.value);
    MessageGone(w0, rt.w);
    rt.Delete(message.value);
  }

  method ReceiveForClient(rt: CmsRuntime, wrapper: Id, timeout: Timeout) returns (ok: bool, arrived: bool)
    requires Sound(rt.w) && wrapper in rt.w.live && rt.w.heap[wrapper].CachedConsumer?
    modifies rt
    ensures Sound(rt.w)
    ensures var w := old(rt.w);
            var after := w.(events := w.events + [ReceivedThrough(w, wrapper, timeout)]);
            rt.w == if !ok then w.(faults := w.faults + 1)
                    else if arrived then Alloc(after, Message).(delivered := w.delivered + {|w.heap|}) else after
  {
    var message;
    ok, message := rt.Receive(wrapper, timeout);
    arrived := message.Some?;
    if arrived {
      rt.Deliver(message.value);
    }
  }

  /** A provider call that creates nothing. */
  lemma CallDid(t: Template, w: World, w1: World, e: Delivery, wanted: Event, ok: bool)
    requires Inv(t, w) && Serves(e.event, wanted) && Sound(w1)
    requires w1 == if ok then w.(events := w.events + [e]) else w.(faults := w.faults + 1)
    ensures Inv(t, w1) && Did(t, w, t, w1, wanted, ok)
  {
    StructureKept(t, w, w1);
    QuietKeeps(t, w, w1);
  }

  /** Sending a message that the template creates and deletes. */
  lemma MessageDid(t: Template, w: World, w1: World, e: Delivery, wanted: Event, ok: bool)
    requires Inv(t, w) && Serves(e.event, wanted) && MessageSent(w, w1, e, ok)
    ensures Inv(t, w1) && Did(t, w, t, w1, wanted, ok)
  {
    if w1 == w.(faults := w.faults + 1) {
      StructureKept(t, w, w1);
    } else {
      MessageInv(t, w, w1);
    }
    QuietKeeps(t, w, w1);
  }

  /** The message is deleted and leaves nothing behind but the event. */
  lemma MessageGone(w: World, w2: World)
    requires Sound(w) && RowsExact(w) && Sound(w2) && MayDelete(w2, |w.heap|)
    requires w2 == Alloc(w, Message).(events := w2.events, faults := w2.faults)
    ensures MessageCameAndWent(w, Free(w2, |w.heap|))
  {
    FreeSound(w2, |w.heap|);
    assert |w.heap| !in w.caches by { assert |w.heap| in w.caches ==> LivePooled(w, |w.heap|); }
    assert w.caches - {|w.heap|} == w.caches;
    assert w.live + {|w.heap|} - {|w.heap|} == w.live;
  }

  /** A receive, whether or not a message came in time. */
  lemma ReceiveDid(t: Template, w: World, w1: World, e: Delivery, wanted: Event, ok: bool, arrived: bool)
    requires Inv(t, w) && Serves(e.event, wanted) && Sound(w1)
    requires var after := w.(events := w.events + [e]);
             w1 == if !ok then w.(faults := w.faults + 1)
                   else if arrived then Alloc(after, Message).(delivered := w.delivered + {|w.heap|}) else after
    ensures Inv(t, w1) && Did(t, w, t, w1, wanted, ok)
  {
    if ok && arrived {
      MessageReceived(t, w, w1);
    } else {
      StructureKept(t, w, w1);
    }
    QuietKeeps(t, w, w1);
  }

  // ---- Setting properties ----

  function Supplied(d: Option<Destination>): Option<DestinationRef> {
    if d.Some? then Some(DestinationRef(d.value, None)) else None
  }

  function AfterSetting(t: Template, x: Setting): Template {
    t.(config := ApplyConfig(t.config, x),
       defaultDestination := if x.DefaultDestination? then Supplied(x.d)
                             else if DropsDefault(t.config, x) then None else t.defaultDestination)
  }

  /** A setter keeps the invariant: a default resolved for another name or domain is dropped. */
  lemma SettingInv(t: Template, w: World, x: Setting)
    requires Inv(t, w)
    ensures Inv(AfterSetting(t, x), w) && View(AfterSetting(t, x)) == Apply(View(t), x)
  {
    SettingCoherent(t, w, x);
  }

  lemma SettingCoherent(t: Template, w: World, x: Setting)
    requires DefaultCoherent(t.defaultDestination, t.config, w)
    ensures DefaultCoherent(AfterSetting(t, x).defaultDestination, AfterSetting(t, x).config, w)
    ensures View(AfterSetting(t, x)) == Apply(View(t), x)
    ensures AfterSetting(t, x).config.hasFactory == t.config.hasFactory
  {
  }

  lemma SettingKeeps(t: Template, w: World, x: Setting)
    requires RowsExact(w) && |t.pools| == NUM_SESSION_POOLS
    ensures Keeps(t, w, AfterSetting(t, x), w, {}) && SameLeases(t, AfterSetting(t, x))
  {
    AddedKeeps(t, w, AfterSetting(t, x), w, {});
  }
}
