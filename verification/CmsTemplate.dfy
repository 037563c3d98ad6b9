/** CmsTemplate: lazily created connection, session pools and cached default destination, with
    a destroy that every failing frame runs. */
module CmsTemplates {
  import opened Wrappers
  import opened Destinations
  import opened CacheKeys
  import opened Runtime
  import opened ResourceLifecycleManagers
  import opened PooledSessions
  import opened SessionPools
  import opened DestinationResolvers
  import opened Commands
  import opened TemplateState
  import opened TemplateRuns
  import opened TemplateSteps
  import opened TemplateCalls

  /** One pool, or none yet, for each acknowledge mode. */
  type PoolArray = s: seq<SessionPool?> | |s| == NUM_SESSION_POOLS witness [null, null, null, null]

  class CmsTemplate {
    const rt: CmsRuntime
    const resourceLifecycleManager: ResourceLifecycleManager
    const destinationResolver: DynamicDestinationResolver
    var initialized: bool
    var connection: Option<Id>
    var sessionPools: PoolArray
    var defaultDestination: Option<DestinationRef>
    var config: Config
    ghost var Repr: set<object>

    ghost predicate Valid()
      reads this, Repr
    {
      && {this, rt, resourceLifecycleManager, destinationResolver} <= Repr
      && destinationResolver.rt == rt
      && (forall i, j :: 0 <= i < j < NUM_SESSION_POOLS && sessionPools[i] != null ==> sessionPools[i] != sessionPools[j])
      && (forall p :: p in sessionPools && p != null ==>
            p in Repr && p.rt == rt && p.resourceLifecycleManager == resourceLifecycleManager)
      && (destinationResolver.resourceLifecycleManager == null
          || destinationResolver.resourceLifecycleManager == resourceLifecycleManager)
    }

    ghost function PoolAt(i: nat): Option<PoolState>
      requires i < NUM_SESSION_POOLS
      reads this, sessionPools[i]
    {
      if sessionPools[i] == null then None else Some(sessionPools[i].State())
    }

    ghost function State(): Template
      reads this, destinationResolver, resourceLifecycleManager
      reads sessionPools[0], sessionPools[1], sessionPools[2], sessionPools[3]
    {
      Template(initialized, connection, [PoolAt(0), PoolAt(1), PoolAt(2), PoolAt(3)], defaultDestination,
               destinationResolver.sessionResolverMap,
               destinationResolver.resourceLifecycleManager == resourceLifecycleManager,
               resourceLifecycleManager.Contents(), config)
    }

    constructor (hasFactory: bool)
      ensures Valid() && fresh(Repr)
      ensures Pristine(State(), rt.w) && Inv(State(), rt.w)
      ensures config == DefaultConfig(hasFactory) && rt.w == EMPTY_WORLD
    {
      var runtime := new CmsRuntime();
      rt := runtime;
      resourceLifecycleManager := new ResourceLifecycleManager();
      destinationResolver := new DynamicDestinationResolver(runtime);
      initialized := false;
      connection := None;
      sessionPools := [null, null, null, null];
      defaultDestination := None;
      config := DefaultConfig(hasFactory);
      Repr := {this, runtime, resourceLifecycleManager, destinationResolver};
      new;
      PristineInv(State(), rt.w);
    }

    // ---- destroy ----

    /** Deletes the pool of one mode, with its pooled sessions and their wrappers. */
    method DestroySessionPool(ix: nat)
      requires Valid() && ix < NUM_SESSION_POOLS && sessionPools[ix] != null
      requires Destroyable(State(), rt.w)
      modifies this`sessionPools, rt, sessionPools[ix]
      ensures Valid() && sessionPools == old(sessionPools)[ix := null]
      ensures Destroyable(State(), rt.w)
      ensures State() == old(State()).(pools := old(State()).pools[ix := None])
      ensures rt.w == old(rt.w).(live := rt.w.live, freed := rt.w.freed, caches := rt.w.caches)
    {
      hide Destroyable, Sound, CachesExact;
      ghost var t0, w0 := State(), rt.w;
      EmptyPool(ix);
      ghost var t1 := State();
      ForgetPool(ix);
      assert t1.pools[ix := None] == t0.pools[ix := None];
      PoolGone(t0, w0, rt.w, ix);
    }

    /** The pool frees its sessions and their wrappers. */
    method EmptyPool(ix: nat)
      requires Valid() && ix < NUM_SESSION_POOLS && sessionPools[ix] != null
      requires Destroyable(State(), rt.w)
      modifies rt, sessionPools[ix]
      ensures Valid() && Sound(rt.w) && CachesExact(rt.w)
      ensures State() == old(State()).(pools := old(State()).pools[ix := Some(sessionPools[ix].State())])
      ensures WithoutSessions(old(rt.w), rt.w, old(sessionPools[ix].sessions))
    {
      hide Destroyable, Sound, CachesExact, WithoutSessions, Distinct, SetOf, InPool;
      ghost var t0, w0 := State(), rt.w;
      PoolDeletable(t0, w0, ix);
      sessionPools[ix].Destroy();
      assert State().pools == t0.pools[ix := Some(sessionPools[ix].State())];
    }

    /** The pointer to a deleted pool is cleared. */
    method ForgetPool(ix: nat)
      requires Valid() && ix < NUM_SESSION_POOLS
      modifies this`sessionPools
      ensures Valid() && sessionPools == old(sessionPools)[ix := null]
      ensures State() == old(State()).(pools := old(State()).pools[ix := None])
    {
      ghost var t0 := State();
      sessionPools := sessionPools[ix := null];
      assert State().pools == t0.pools[ix := None];
    }

    /** Deletes the pools that exist, each with its pooled sessions and their wrappers. */
    method DestroySessionPools()
      requires Valid() && Destroyable(State(), rt.w)
      modifies Repr
      ensures Valid() && Repr == old(Repr)
      ensures sessionPools == [null, null, null, null]
      ensures Destroyable(State(), rt.w)
      ensures State() == old(State()).(pools := NO_POOLS)
      ensures rt.w == old(rt.w).(live := rt.w.live, freed := rt.w.freed, caches := rt.w.caches)
      ensures old(sessionPools) == [null, null, null, null] ==> rt.w == old(rt.w)
    {
      ghost var t0, w0 := State(), rt.w;
      for ix := 0 to NUM_SESSION_POOLS
        invariant Valid() && Repr == old(Repr) && Destroyable(State(), rt.w)
        invariant forall i :: 0 <= i < ix ==> sessionPools[i] == null
        invariant forall i :: ix <= i < NUM_SESSION_POOLS ==> sessionPools[i] == old(sessionPools)[i]
        invariant State() == t0.(pools := State().pools)
        invariant rt.w == w0.(live := rt.w.live, freed := rt.w.freed, caches := rt.w.caches)
        invariant old(sessionPools) == [null, null, null, null] ==> rt.w == w0
      {
        if sessionPools[ix] != null {
          DestroySessionPool(ix);
        }
      }
    }

    /** destroy(): forgets the connection and the default destination, then deletes pools with
        their wrappers, then session resolvers, then every managed resource in order. */
    method Destroy()
      requires Valid() && Destroyable(State(), rt.w)
      modifies Repr
      ensures Valid() && Repr == old(Repr)
      ensures Inv(State(), rt.w) && Collapsed(old(State()), old(rt.w), State(), rt.w, {})
      ensures rt.w.faults == old(rt.w).faults
      ensures Pristine(old(State()), old(rt.w)) ==> State() == old(State()) && rt.w == old(rt.w)
    {
      initialized := false;
      connection := None;
      defaultDestination := None;
      DestroySessionPools();
      DestroyAccessor();
    }

    /** The catch handler of every frame: destroy, then rethrow. */
    method CatchAndDestroy()
      requires Valid() && Inv(State(), rt.w)
      modifies Repr
      ensures Valid() && Repr == old(Repr) && Inv(State(), rt.w)
      ensures Collapsed(old(State()), old(rt.w), State(), rt.w, {}) && rt.w.faults == old(rt.w).faults
      ensures Pristine(old(State()), old(rt.w)) ==> State() == old(State()) && rt.w == old(rt.w)
    {
      Destroy();
    }

    /** Deletes the session resolvers and then every managed resource. */
    method DestroyAccessor()
      requires Valid() && Destroyable(State(), rt.w)
      requires !initialized && connection.None? && defaultDestination.None? && State().pools == NO_POOLS
      modifies destinationResolver, resourceLifecycleManager, rt
      ensures Valid() && Inv(State(), rt.w) && Pristine(State(), rt.w)
      ensures rt.w == old(rt.w).(live := rt.w.live, freed := rt.w.freed, caches := rt.w.caches, closed := rt.w.closed)
      ensures Pristine(old(State()), old(rt.w)) ==> State() == old(State()) && rt.w == old(rt.w)
    {
      ghost var t0, w0 := State(), rt.w;
      destinationResolver.Destroy();
      ghost var w1 := rt.w;
      ResolversGone(t0, w0, w1);
      resourceLifecycleManager.Destroy(rt);
      NothingToFree(w1);
      ManagedGone(State(), t0.lists, w1, rt.w);
      PristineInv(State(), rt.w);
    }

    // ---- connection and sessions ----

    method Init()
      requires Valid() && Inv(State(), rt.w)
      modifies this`initialized, destinationResolver, rt
      ensures Valid() && Inv(State(), rt.w) && initialized
      ensures Silent(old(State()), old(rt.w), State(), rt.w, {}, {})
      ensures config == old(config)
    {
      if !initialized {
        destinationResolver.Init(resourceLifecycleManager);
        initialized := true;
      }
      SilentSame(old(State()), State(), rt.w);
    }

    /** Asks the factory for a connection and puts it under management. */
    method CreateConnection() returns (c: Option<Id>)
      requires Valid() && Sound(rt.w)
      modifies resourceLifecycleManager, rt
      ensures Valid() && Sound(rt.w)
      ensures c.None? ==> State() == old(State())
      ensures c.None? ==> rt.w == if config.hasFactory then old(rt.w).(faults := old(rt.w).faults + 1) else old(rt.w)
      ensures c.Some? ==>
                && c.value == |old(rt.w).heap| && rt.w == Alloc(old(rt.w), Connection) && config.hasFactory
                && State() == old(State()).(lists := AddTo(old(State()).lists, Connection, c.value))
    {
      if !config.hasFactory { return None; }
      c := rt.Create(Connection);
      if c.Some? { resourceLifecycleManager.AddConnection(c.value); }
    }

    /** A new pool for each mode; pools that exist are destroyed first. */
    method CreateSessionPools(c: Id)
      requires Valid() && Destroyable(State(), rt.w)
      modifies Repr
      ensures Valid() && fresh(Repr - old(Repr)) && old(Repr) <= Repr
      ensures State() == old(State()).(pools := EmptyPools(c))
      ensures rt.w == old(rt.w).(live := rt.w.live, freed := rt.w.freed, caches := rt.w.caches)
      ensures old(sessionPools) == [null, null, null, null] ==> rt.w == old(rt.w)
    {
      DestroySessionPools();
      FillPools(c);
    }

    method FillPools(c: Id)
      requires Valid() && sessionPools == [null, null, null, null]
      modifies this`sessionPools, this`Repr
      ensures Valid() && fresh(Repr - old(Repr)) && old(Repr) <= Repr
      ensures State() == old(State()).(pools := EmptyPools(c))
    {
      for ix := 0 to NUM_SESSION_POOLS
        invariant Valid() && fresh(Repr - old(Repr)) && old(Repr) <= Repr
        invariant forall i :: ix <= i < NUM_SESSION_POOLS ==> sessionPools[i] == null
        invariant forall i :: 0 <= i < ix ==> sessionPools[i] != null && fresh(sessionPools[i])
        invariant forall i :: 0 <= i < ix ==> sessionPools[i].State() == PoolState(c, i, EMPTY_POOL)
        invariant State() == old(State()).(pools := State().pools)
      {
        var pool := new SessionPool(c, ix, rt, resourceLifecycleManager);
        sessionPools := sessionPools[ix := pool];
        Repr := Repr + {pool};
      }
    }

    /** The cached connection, or a new one. */
    method GetConnection() returns (ok: bool)
      requires Valid() && Inv(State(), rt.w) && initialized
      modifies Repr
      ensures Valid() && fresh(Repr - old(Repr)) && Inv(State(), rt.w)
      ensures ok ==> Silent(old(State()), old(rt.w), State(), rt.w, {}, {})
      ensures ok ==> connection.Some? && initialized && config == old(config)
      ensures !ok ==> Collapsed(old(State()), old(rt.w), State(), rt.w, {})
      ensures !ok ==> rt.w.faults == old(rt.w).faults + Blame(!config.hasFactory)
    {
      hide Inv;
      ok := true;
      if connection.None? {
        ok := Connect();
      } else {
        SilentSame(State(), State(), rt.w);
      }
    }

    /** A new connection: it is managed, started, and gets its session pools. */
    method Connect() returns (ok: bool)
      requires Valid() && Inv(State(), rt.w) && initialized && connection.None?
      modifies Repr
      ensures Valid() && fresh(Repr - old(Repr)) && Inv(State(), rt.w)
      ensures ok ==> Silent(old(State()), old(rt.w), State(), rt.w, {}, {})
      ensures ok ==> connection.Some? && initialized && config == old(config)
      ensures !ok ==> Collapsed(old(State()), old(rt.w), State(), rt.w, {})
      ensures !ok ==> rt.w.faults == old(rt.w).faults + Blame(!config.hasFactory)
    {
      hide Inv, Silent, Destroyable;
      ghost var t0, w0 := State(), rt.w;
      NoConnectionNoSessions(t0, w0);
      ok := OpenConnection();
      if ok {
        CreateSessionPools(connection.value);
        PoolsAdded(t0, w0);
        ConnectedRel(t0, w0);
      } else {
        ghost var w1 := rt.w;
        Destroy();
        GrewTrans(w0, w1, rt.w);
      }
    }

    /** Creates a connection and starts it; one that does not start is left for destroy. */
    method OpenConnection() returns (ok: bool)
      requires Valid() && Inv(State(), rt.w) && connection.None?
      modifies this`connection, resourceLifecycleManager, rt
      ensures Valid() && Destroyable(State(), rt.w)
      ensures State() == old(State()).(connection := connection, lists := State().lists)
      ensures ok ==> rt.w == Alloc(old(rt.w), Connection) && connection == Some(|old(rt.w).heap|) && config.hasFactory
      ensures ok ==> State().lists == AddTo(old(State()).lists, Connection, |old(rt.w).heap|)
      ensures sessionPools == old(sessionPools) && Repr == old(Repr)
      ensures !ok ==> Grew(old(rt.w), rt.w) && rt.w.events == old(rt.w).events && rt.w.asked == old(rt.w).asked
      ensures !ok ==> rt.w.faults == old(rt.w).faults + Blame(!config.hasFactory)
    {
      hide Inv, Destroyable, Sound, Grew, MemoExact, ConnectionExact, DefaultCoherent, LiveConnection;
      ghost var t0, w0 := State(), rt.w;
      DestroyableInv(t0, w0);
      var c := CreateConnection();
      if c.None? {
        FaultDestroyable(t0, w0, rt.w);
        FaultGrew(w0, w0, rt.w);
        return false;
      }
      ConnectionAdded(t0, w0);
      connection := c;
      assert State() == t0.(connection := c, lists := AddTo(t0.lists, Connection, |w0.heap|));
      ghost var w1 := rt.w;
      ok := Start();
      FaultGrew(w0, w1, rt.w);
    }

    /** Starts the connection. */
    method Start() returns (ok: bool)
      requires Valid() && Destroyable(State(), rt.w)
      modifies rt
      ensures Valid() && State() == old(State()) && Destroyable(State(), rt.w)
      ensures rt.w == if ok then old(rt.w) else old(rt.w).(faults := old(rt.w).faults + 1)
    {
      ghost var t0, w0 := State(), rt.w;
      ok := rt.Call();
      assert State() == t0;
      FaultDestroyable(t0, w0, rt.w);
    }

    /** A session of the current acknowledge mode, connecting first if need be. */
    method TakeSession() returns (s: Option<Id>)
      requires Valid() && Inv(State(), rt.w) && initialized
      modifies Repr
      ensures Valid() && fresh(Repr - old(Repr)) && Inv(State(), rt.w)
      ensures s.Some? ==> TookSession(old(State()), old(rt.w), State(), rt.w, s.value, config.acknowledgeMode)
      ensures s.Some? ==> initialized && config == old(config) && config.hasFactory
      ensures s.None? ==> Collapsed(old(State()), old(rt.w), State(), rt.w, {})
      ensures s.None? ==> rt.w.faults == old(rt.w).faults + Blame(!config.hasFactory)
    {
      var ok := GetConnection();
      if !ok { return None; }
      ghost var t1, w1 := State(), rt.w;
      s := TakeFromPool(config.acknowledgeMode);
      if s.None? {
        Destroy();
      } else {
        TookAfter(old(State()), old(rt.w), t1, w1, State(), rt.w, s.value, config.acknowledgeMode);
      }
    }

    /** Takes a session from the pool of mode `m`. */
    method TakeFromPool(m: PoolMode) returns (s: Option<Id>)
      requires Valid() && Inv(State(), rt.w) && connection.Some?
      modifies sessionPools[m], resourceLifecycleManager, rt
      ensures Valid()
      ensures s.Some? ==> TookSession(old(State()), old(rt.w), State(), rt.w, s.value, m)
      ensures s.None? ==> State() == old(State()) && Destroyable(State(), rt.w)
      ensures s.None? ==> rt.w == old(rt.w).(faults := old(rt.w).faults + 1)
    {
      hide Inv, Destroyable, TookSession, Sound, Take, Taken, WithSession;
      ghost var t0, w0 := State(), rt.w;
      ConnectedPools(t0, w0, m);
      DestroyableInv(t0, w0);
      s := sessionPools[m].TakeSession();
      ghost var t1, p1 := State(), sessionPools[m].State();
      assert t1.pools == t0.pools[m := Some(p1)];
      TakeOutcome(t0, w0, t1, rt.w, m, p1, s);
    }

    /** Closing a pooled session only hands it back to the pool it came from. */
    method ReturnSession(s: Id)
      requires Valid() && Inv(State(), rt.w) && IsOut(State(), rt.w, s)
      modifies Repr
      ensures Valid() && Repr == old(Repr) && rt.w == old(rt.w)
      ensures State() == SetPool(old(State()), rt.w.heap[s].mode, Return(old(State()).pools[rt.w.heap[s].mode].value.pool, s))
    {
      var m := rt.w.heap[s].mode;
      sessionPools[m].ReturnSession(s);
    }

    // ---- destinations, producers and consumers ----

    /** The destination that a name denotes in the current domain. */
    method ResolveDestinationName(s: Id, name: string) returns (r: Option<DestinationRef>)
      requires Valid() && Inv(State(), rt.w) && initialized && IsOut(State(), rt.w, s)
      modifies destinationResolver, resourceLifecycleManager, rt
      ensures Valid() && Inv(State(), rt.w)
      ensures ResolvedName(old(State()), old(rt.w), State(), rt.w, name, r)
      ensures r.Some? ==> r.value.dest == Destination(if config.pubSubDomain then Topic else Queue, PhysicalName(name))
    {
      hide Inv;
      ghost var t0, w0 := State(), rt.w;
      ResolverReady(t0, w0, s);
      r := destinationResolver.ResolveDestinationName(s, name, config.pubSubDomain);
      ghost var t1 := State();
      assert t1 == t0.(memo := t1.memo, lists := t1.lists);
      ResolutionDone(t0, w0, t1, rt.w, s, name, r);
    }

    method SetDefaultDestination(d: Option<DestinationRef>)
      requires Valid()
      modifies this`defaultDestination
      ensures Valid() && State() == old(State()).(defaultDestination := d)
    {
      defaultDestination := d;
    }

    /** The default destination object, resolved from the default name the first time and
        remembered; without an object and a name the call throws. */
    method ResolveDefaultDestination(s: Id) returns (r: Option<DestinationRef>)
      requires Valid() && Inv(State(), rt.w) && initialized && IsOut(State(), rt.w, s)
      modifies Repr
      ensures Valid() && Repr == old(Repr) && Inv(State(), rt.w)
      ensures r.Some? ==> ResolvedTo(old(State()), old(rt.w), State(), rt.w, DefaultTarget, r.value) && initialized
      ensures r.None? ==> Collapsed(old(State()), old(rt.w), State(), rt.w, {})
      ensures r.None? ==> rt.w.faults == old(rt.w).faults + Blame(Resolve(DefaultTarget, View(old(State()))).None?)
    {
      hide Inv;
      if defaultDestination.None? && config.defaultDestinationName == "" {
        CatchAndDestroy();
        return None;
      }
      r := defaultDestination;
      if r.None? {
        r := ResolveDefaultName(s);
      } else {
        DefaultKnown(State(), rt.w);
      }
    }

    /** Resolves the default name and remembers the destination. */
    method ResolveDefaultName(s: Id) returns (r: Option<DestinationRef>)
      requires Valid() && Inv(State(), rt.w) && initialized && IsOut(State(), rt.w, s)
      requires defaultDestination.None?
      modifies Repr
      ensures Valid() && Repr == old(Repr) && Inv(State(), rt.w)
      ensures r.Some? ==> ResolvedTo(old(State()), old(rt.w), State(), rt.w, DefaultTarget, r.value) && initialized
      ensures r.None? ==> Collapsed(old(State()), old(rt.w), State(), rt.w, {})
      ensures r.None? ==> rt.w.faults == old(rt.w).faults + Blame(Resolve(DefaultTarget, View(old(State()))).None?)
    {
      hide Inv;
      r := ResolveDestinationName(s, config.defaultDestinationName);
      if r.None? {
        CatchAndDestroy();
      } else {
        ghost var t1 := State();
        SetDefaultDestination(r);
        DefaultRemembered(old(State()), old(rt.w), t1, rt.w, r.value);
      }
    }

    /** The executors' getDestination: none (the default is wanted), the client's own object, or
        the resolved name. */
    method GetDestination(target: Target, s: Id) returns (ok: bool, dest: Option<DestinationRef>)
      requires Valid() && Inv(State(), rt.w) && initialized && IsOut(State(), rt.w, s)
      modifies Repr
      ensures Valid() && Repr == old(Repr) && Inv(State(), rt.w)
      ensures ok ==> initialized && Silent(old(State()), old(rt.w), State(), rt.w, {}, {}) && config == old(config)
      ensures ok ==> if target.DefaultTarget? then dest.None?
                     else dest.Some? && ResolvedTo(old(State()), old(rt.w), State(), rt.w, target, dest.value)
      ensures !ok ==> Collapsed(old(State()), old(rt.w), State(), rt.w, {})
      ensures !ok ==> rt.w.faults == old(rt.w).faults + Blame(Resolve(target, View(old(State()))).None?)
    {
      hide Inv;
      match target
      case DefaultTarget =>
        SilentSame(State(), State(), rt.w);
        ok, dest := true, None;
      case DestinationTarget(d) =>
        SilentSame(State(), State(), rt.w);
        ok, dest := true, Some(DestinationRef(d, None));
      case NameTarget(n) =>
        dest := ResolveDestinationName(s, n);
        ok := dest.Some?;
        if !ok { CatchAndDestroy(); }
    }

    /** The given destination, or the default one when none is given. */
    method DestinationOrDefault(s: Id, dest: Option<DestinationRef>) returns (r: Option<DestinationRef>)
      requires Valid() && Inv(State(), rt.w) && initialized && IsOut(State(), rt.w, s)
      requires dest.Some? ==> LiveRef(rt.w, dest.value)
      modifies Repr
      ensures Valid() && Repr == old(Repr) && Inv(State(), rt.w)
      ensures r.Some? ==> Chosen(old(State()), old(rt.w), State(), rt.w, dest, r.value) && initialized
      ensures r.None? ==> Collapsed(old(State()), old(rt.w), State(), rt.w, {})
      ensures r.None? ==> rt.w.faults == old(rt.w).faults + Blame(Wanted(dest, View(old(State()))).None?)
    {
      hide Inv;
      if dest.Some? {
        r := dest;
        SilentSame(State(), State(), rt.w);
      } else {
        r := ResolveDefaultDestination(s);
      }
    }

    /** createProducer: the cached producer of the destination, or of the default one when none
        is given, with its flags set from the current properties. */
    method CreateProducer(s: Id, dest: Option<DestinationRef>) returns (c: Option<Id>)
      requires Valid() && Inv(State(), rt.w) && initialized && IsOut(State(), rt.w, s)
      requires dest.Some? ==> LiveRef(rt.w, dest.value)
      modifies Repr
      ensures Valid() && Repr == old(Repr) && Inv(State(), rt.w)
      ensures c.Some? ==> initialized && Wanted(dest, View(old(State()))).Some?
      ensures c.Some? ==> ProducerReady(old(State()), old(rt.w), State(), rt.w, s, c.value, Wanted(dest, View(old(State()))).value)
      ensures c.None? ==> Collapsed(old(State()), old(rt.w), State(), rt.w, SendingTo(Wanted(dest, View(old(State())))))
      ensures c.None? ==> rt.w.faults == old(rt.w).faults + Blame(Wanted(dest, View(old(State()))).None?)
    {
      hide Inv;
      var d := DestinationOrDefault(s, dest);
      if d.None? { return None; }
      ghost var t1, w1 := State(), rt.w;
      OutStays(old(State()), old(rt.w), t1, w1, s);
      c := CachedProducerFor(s, d.value);
      if c.Some? {
        ReadyAfter(old(State()), old(rt.w), t1, w1, State(), rt.w, s, c.value, d.value.dest);
      } else {
        CollapsedAfter(old(State()), old(rt.w), t1, w1, State(), rt.w, {}, {Sending(d.value.dest)});
      }
    }

    /** The cached producer for a destination, with its flags set. */
    method CachedProducerFor(s: Id, d: DestinationRef) returns (c: Option<Id>)
      requires Valid() && Inv(State(), rt.w) && initialized && IsOut(State(), rt.w, s) && LiveRef(rt.w, d)
      modifies Repr
      ensures Valid() && Repr == old(Repr) && Inv(State(), rt.w)
      ensures c.Some? ==> initialized && ProducerReady(old(State()), old(rt.w), State(), rt.w, s, c.value, d.dest)
      ensures c.None? ==> Collapsed(old(State()), old(rt.w), State(), rt.w, {Sending(d.dest)}) && rt.w.faults == old(rt.w).faults + 1
    {
      hide Inv;
      c := PooledProducer(s, d);
      ghost var t1, w1 := State(), rt.w;
      if c.Some? {
        var ok := SetProducerFlags(s, c.value, d.dest);
        if ok {
          ReadyAfter(old(State()), old(rt.w), t1, w1, State(), rt.w, s, c.value, d.dest);
          return;
        }
        GrewTrans(old(rt.w), w1, rt.w);
        c := None;
      }
      ghost var w2 := rt.w;
      CatchAndDestroy();
      GrewTrans(old(rt.w), w2, rt.w);
    }

    /** The session's cached producer, found or created. */
    method PooledProducer(s: Id, d: DestinationRef) returns (c: Option<Id>)
      requires Valid() && Inv(State(), rt.w) && IsOut(State(), rt.w, s) && LiveRef(rt.w, d)
      modifies rt, resourceLifecycleManager
      ensures Valid() && Inv(State(), rt.w) && old(rt.w).events == rt.w.events && Grew(old(rt.w), rt.w)
      ensures AsksFor(old(rt.w), rt.w, {Sending(d.dest)})
      ensures c.None? ==> State() == old(State()) && rt.w.faults == old(rt.w).faults + 1
      ensures c.Some? ==> WithinLease(old(State()), old(rt.w), State(), rt.w, s, {Sending(d.dest)}) && s in rt.w.caches
      ensures c.Some? ==> UniqueDestName(d.dest) in rt.w.caches[s].producers
                          && rt.w.caches[s].producers[UniqueDestName(d.dest)] == c.value
    {
      hide Inv, LiveRef, UniqueDestName, ProducerCreated, WithinLease, CachesExact, Sound;
      ghost var t0, w0 := State(), rt.w;
      RowOf(t0, w0, s);
      c := CreateCachedProducer(rt, resourceLifecycleManager, s, d);
      ghost var t1 := State();
      assert t1 == t0.(lists := t1.lists);
      CachedProducerRel(t0, w0, t1, rt.w, s, d, c);
    }

    /** Sets both flags of a producer from the properties; either call can throw. */
    method SetProducerFlags(s: Id, c: Id, ghost dest: Destination) returns (ok: bool)
      requires Valid() && Inv(State(), rt.w) && IsOut(State(), rt.w, s) && s in rt.w.caches
      requires UniqueDestName(dest) in rt.w.caches[s].producers && rt.w.caches[s].producers[UniqueDestName(dest)] == c
      modifies rt
      ensures Valid() && Inv(State(), rt.w) && State() == old(State())
      ensures ok ==> ProducerReady(old(State()), old(rt.w), State(), rt.w, s, c, dest)
      ensures !ok ==> Grew(old(rt.w), rt.w) && rt.w.events == old(rt.w).events && AsksFor(old(rt.w), rt.w, {})
      ensures !ok ==> rt.w.faults == old(rt.w).faults + 1
    {
      hide Inv, Sound;
      ghost var t0, w0 := State(), rt.w;
      FlagsUsable(t0, w0, s, c, dest);
      var p := rt.w.heap[c].rawProducer;
      ok := rt.SetDisableMessageID(p, !config.messageIdEnabled);
      if ok {
        ok := rt.SetDisableMessageTimeStamp(p, !config.messageTimestampEnabled);
      }
      assert State() == t0;
      if ok {
        FlagsReady(t0, w0, s, c, dest);
        assert rt.w.flags == w0.flags[p := ProducerFlags(config)];
      } else {
        FlagsKept(t0, w0, rt.w);
      }
    }

    /** createConsumer: the cached consumer of the destination, selector and noLocal flag. */
    method CreateConsumer(s: Id, dest: Option<DestinationRef>, selector: string, noLocal: bool) returns (c: Option<Id>)
      requires Valid() && Inv(State(), rt.w) && initialized && IsOut(State(), rt.w, s)
      requires dest.Some? ==> LiveRef(rt.w, dest.value)
      modifies Repr
      ensures Valid() && Repr == old(Repr) && Inv(State(), rt.w)
      ensures c.Some? ==> initialized && Wanted(dest, View(old(State()))).Some?
      ensures c.Some? ==> ConsumerReady(old(State()), old(rt.w), State(), rt.w, s, c.value,
                                        Wanted(dest, View(old(State()))).value, selector, noLocal)
      ensures c.None? ==> Collapsed(old(State()), old(rt.w), State(), rt.w,
                                    ReceivingFrom(Wanted(dest, View(old(State()))), selector, noLocal))
      ensures c.None? ==> rt.w.faults == old(rt.w).faults + Blame(Wanted(dest, View(old(State()))).None?)
    {
      hide Inv;
      var d := DestinationOrDefault(s, dest);
      if d.None? { return None; }
      ghost var t1, w1 := State(), rt.w;
      OutStays(old(State()), old(rt.w), t1, w1, s);
      c := CachedConsumerFor(s, d.value, selector, noLocal);
      if c.Some? {
        ConsumerReadyAfter(old(State()), old(rt.w), t1, w1, State(), rt.w, s, c.value, d.value.dest, selector, noLocal);
      } else {
        CollapsedAfter(old(State()), old(rt.w), t1, w1, State(), rt.w, {}, {Receiving(d.value.dest, selector, noLocal)});
      }
    }

    /** The cached consumer for a destination. */
    method CachedConsumerFor(s: Id, d: DestinationRef, selector: string, noLocal: bool) returns (c: Option<Id>)
      requires Valid() && Inv(State(), rt.w) && initialized && IsOut(State(), rt.w, s) && LiveRef(rt.w, d)
      modifies Repr
      ensures Valid() && Repr == old(Repr) && Inv(State(), rt.w)
      ensures c.Some? ==> initialized && ConsumerReady(old(State()), old(rt.w), State(), rt.w, s, c.value, d.dest, selector, noLocal)
      ensures c.None? ==> Collapsed(old(State()), old(rt.w), State(), rt.w, {Receiving(d.dest, selector, noLocal)})
      ensures c.None? ==> rt.w.faults == old(rt.w).faults + 1
    {
      hide Inv;
      c := PooledConsumer(s, d, selector, noLocal);
      if c.None? {
        ghost var w1 := rt.w;
        CatchAndDestroy();
        GrewTrans(old(rt.w), w1, rt.w);
      }
    }

    /** The session's cached consumer, found or created. */
    method PooledConsumer(s: Id, d: DestinationRef, selector: string, noLocal: bool) returns (c: Option<Id>)
      requires Valid() && Inv(State(), rt.w) && IsOut(State(), rt.w, s) && LiveRef(rt.w, d)
      modifies rt, resourceLifecycleManager
      ensures Valid() && Inv(State(), rt.w) && old(rt.w).events == rt.w.events && Grew(old(rt.w), rt.w)
      ensures AsksFor(old(rt.w), rt.w, {Receiving(d.dest, selector, noLocal)})
      ensures c.None? ==> State() == old(State()) && rt.w.faults == old(rt.w).faults + 1
      ensures c.Some? ==> ConsumerReady(old(State()), old(rt.w), State(), rt.w, s, c.value, d.dest, selector, noLocal)
    {
      hide Inv, LiveRef, ConsumerKey, ConsumerCreated, WithinLease, CachesExact, Sound;
      ghost var t0, w0 := State(), rt.w;
      RowOf(t0, w0, s);
      c := CreateCachedConsumer(rt, resourceLifecycleManager, s, d, selector, noLocal);
      ghost var t1 := State();
      assert t1 == t0.(lists := t1.lists);
      CachedConsumerRel(t0, w0, t1, rt.w, s, d, selector, noLocal, c);
    }

    // ---- sending and receiving ----

    /** The rest of doSend once the client's creator has run: a message is created, sent through
        the cached producer `c` with the explicit quality of service if that is enabled now, and
        deleted whether or not that worked. */
    method DoSend(s: Id, c: Id, payload: int, ghost h: Handed) returns (ok: bool)
      requires Valid() && Inv(State(), rt.w) && Caching(rt.w, s, c, h.dest, h.flags)
      requires s < |rt.w.heap| && rt.w.heap[s].PooledSession? && rt.w.heap[s].mode == h.mode
      modifies rt
      ensures Valid() && Inv(State(), rt.w) && State() == old(State())
      ensures Did(old(State()), old(rt.w), State(), rt.w, Sent(h.dest, payload, QosOf(config), h.flags, h.mode), ok)
    {
      hide Inv, Did;
      ghost var t0, w0 := State(), rt.w;
      SendServes(t0, w0, s, c, h, payload, QosOf(config));
      ghost var e := SentThrough(w0, c, payload, QosOf(config));
      ok := SendNewMessage(rt, c, payload, QosOf(config));
      assert State() == t0;
      MessageDid(t0, w0, rt.w, e, Sent(h.dest, payload, QosOf(config), h.flags, h.mode), ok);
    }

    /** A callback sends a message of its own through the producer it was handed. */
    method UseProducer(s: Id, c: Id, payload: int, ghost h: Handed) returns (ok: bool)
      requires Valid() && Inv(State(), rt.w) && Caching(rt.w, s, c, h.dest, h.flags)
      requires s < |rt.w.heap| && rt.w.heap[s].PooledSession? && rt.w.heap[s].mode == h.mode
      modifies rt
      ensures Valid() && Inv(State(), rt.w) && State() == old(State())
      ensures Did(old(State()), old(rt.w), State(), rt.w, Sent(h.dest, payload, None, h.flags, h.mode), ok)
    {
      hide Inv, Did;
      ghost var t0, w0 := State(), rt.w;
      SendServes(t0, w0, s, c, h, payload, None);
      ghost var e := SentThrough(w0, c, payload, None);
      ok := rt.Send(c, payload, None);
      assert State() == t0;
      CallDid(t0, w0, rt.w, e, Sent(h.dest, payload, None, h.flags, h.mode), ok);
    }

    /** doReceive: one receive with the configured timeout; a message that comes goes straight
        to the client. */
    method DoReceive(s: Id, c: Id, ghost dest: Destination, ghost selector: string, ghost noLocal: bool) returns (ok: bool)
      requires Valid() && Inv(State(), rt.w) && CachingConsumer(rt.w, s, c, ConsumerKey(dest, selector, noLocal))
      requires s < |rt.w.heap| && rt.w.heap[s].PooledSession?
      modifies rt
      ensures Valid() && Inv(State(), rt.w) && State() == old(State())
      ensures Did(old(State()), old(rt.w), State(), rt.w,
                  Received(dest, selector, noLocal, TimeoutOf(config), old(rt.w).heap[s].mode), ok)
    {
      hide Inv, Did;
      ghost var t0, w0 := State(), rt.w;
      ReceiveServes(t0, w0, s, c, dest, selector, noLocal, TimeoutOf(config));
      ghost var e := ReceivedThrough(w0, c, TimeoutOf(config));
      var arrived;
      ok, arrived := ReceiveForClient(rt, c, TimeoutOf(config));
      assert State() == t0;
      ReceiveDid(t0, w0, rt.w, e, Received(dest, selector, noLocal, TimeoutOf(config), w0.heap[s].mode), ok, arrived);
    }

    // ---- properties ----

    /** A new name drops the cached default destination; the same name again does not. */
    method SetDefaultDestinationName(name: string)
      requires Valid()
      modifies this`defaultDestination, this`config
      ensures Valid() && State() == AfterSetting(old(State()), DefaultDestinationName(name))
    {
      if name != config.defaultDestinationName {
        defaultDestination := None;
        config := config.(defaultDestinationName := name);
      }
    }

    /** So does a change between queues and topics. */
    method SetPubSubDomain(on: bool)
      requires Valid()
      modifies this`defaultDestination, this`config
      ensures Valid() && State() == AfterSetting(old(State()), PubSubDomain(on))
    {
      if on != config.pubSubDomain {
        defaultDestination := None;
        config := config.(pubSubDomain := on);
      }
    }

    /** Sets one property. */
    method Configure(x: Setting)
      requires Valid()
      modifies this`defaultDestination, this`config
      ensures Valid() && State() == AfterSetting(old(State()), x)
    {
      match x
      case DefaultDestination(d) => SetDefaultDestination(Supplied(d));
      case DefaultDestinationName(name) => SetDefaultDestinationName(name);
      case PubSubDomain(on) => SetPubSubDomain(on);
      case _ => SetProperty(x);
    }

    /** The setters that only store a value. */
    method SetProperty(x: Setting)
      requires Valid() && !x.DefaultDestination? && !x.DefaultDestinationName? && !x.PubSubDomain?
      modifies this`config
      ensures Valid() && State() == AfterSetting(old(State()), x)
    {
      ghost var t0 := State();
      config := ApplyConfig(config, x);
      assert State() == t0.(config := ApplyConfig(t0.config, x));
    }

    // ---- execute ----

    /** execute: a session is taken, the callback runs in it, and the session goes back; if
        anything throws the template is destroyed. */
    method Execute(cmd: Command, ghost handed: Option<Handed>) returns (ok: bool, ghost k: nat)
      requires Valid() && Inv(State(), rt.w) && NeedsSession(cmd)
      modifies Repr
      ensures Valid() && fresh(Repr - old(Repr)) && Inv(State(), rt.w)
      ensures CallDone(old(State()), old(rt.w), State(), rt.w, cmd, handed, k, ok)
      ensures !ok ==> Pristine(State(), rt.w)
      decreases cmd, 1
    {
      hide Inv;
      ghost var t0, w0 := State(), rt.w;
      var s := Enter();
      ghost var t1, w1 := State(), rt.w;
      if s.None? {
        CatchAndDestroy();
        CollapsedTwice(t0, w0, t1, w1, State(), rt.w, {});
        AcquireFailed(t0, w0, State(), rt.w, cmd, handed);
        return false, 0;
      }
      ok, k := DoInCms(cmd, s.value);
      ghost var t2, w2 := State(), rt.w;
      if ok {
        CallSucceeds(t0, w0, t1, w1, t2, w2, cmd, handed, s.value, k);
        ReturnSession(s.value);
      } else {
        CatchAndDestroy();
        CallFails(t0, w0, t1, w1, t2, w2, State(), rt.w, cmd, handed, s.value, k);
      }
      k := k + 1;
    }

    /** What every call does first: it initialises the template and takes a session. */
    method Enter() returns (s: Option<Id>)
      requires Valid() && Inv(State(), rt.w)
      modifies Repr
      ensures Valid() && fresh(Repr - old(Repr)) && Inv(State(), rt.w)
      ensures s.Some? ==> TookSession(old(State()), old(rt.w), State(), rt.w, s.value, old(config).acknowledgeMode)
      ensures s.Some? ==> initialized && config == old(config) && config.hasFactory
      ensures s.None? ==> Collapsed(old(State()), old(rt.w), State(), rt.w, {})
      ensures s.None? ==> rt.w.faults == old(rt.w).faults + Blame(!config.hasFactory)
    {
      hide Inv;
      Init();
      ghost var t1, w1 := State(), rt.w;
      s := TakeSession();
      if s.Some? {
        TookAfter(old(State()), old(rt.w), t1, w1, State(), rt.w, s.value, config.acknowledgeMode);
      } else {
        CollapsedAfter(old(State()), old(rt.w), t1, w1, State(), rt.w, {}, {});
      }
    }

    /** The callback of a call, in its session. */
    method DoInCms(cmd: Command, s: Id) returns (ok: bool, ghost k: nat)
      requires Valid() && Inv(State(), rt.w) && NeedsSession(cmd) && initialized
      requires IsOut(State(), rt.w, s) && rt.w.heap[s].mode == config.acknowledgeMode
      modifies Repr
      ensures Valid() && fresh(Repr - old(Repr)) && Inv(State(), rt.w)
      ensures InsideDone(old(State()), old(rt.w), State(), rt.w, cmd, s, k, ok)
      decreases cmd, 0
    {
      hide Inv;
      match cmd
      case ExecuteSession(body) =>
        ok, k := RunBody(body, None, None);
        SessionBodyDone(old(State()), old(rt.w), State(), rt.w, cmd, s, k, ok);
      case ExecuteProducer(_, _) => ok, k := ProducerExecutor(cmd, s);
      case Send(_, _, _) => ok, k := SendExecutor(cmd, s);
      case Receive(_, _) => ok, k := ReceiveExecutor(cmd, s);
    }

    /** The executor's getDestination, then createProducer. */
    method ProducerForTarget(cmd: Command, s: Id) returns (c: Option<Id>)
      requires cmd.ExecuteProducer? || cmd.Send?
      requires Valid() && Inv(State(), rt.w) && initialized && IsOut(State(), rt.w, s)
      modifies Repr
      ensures Valid() && Repr == old(Repr) && Inv(State(), rt.w)
      ensures c.Some? ==> initialized && Resolve(TargetOf(cmd), View(old(State()))).Some?
      ensures c.Some? ==> ProducerReady(old(State()), old(rt.w), State(), rt.w, s, c.value,
                                        Resolve(TargetOf(cmd), View(old(State()))).value)
      ensures c.None? ==> InsideDone(old(State()), old(rt.w), State(), rt.w, cmd, s, 0, false)
    {
      hide Inv;
      var found, dest := GetDestination(TargetOf(cmd), s);
      ghost var t1, w1 := State(), rt.w;
      if found {
        OutStays(old(State()), old(rt.w), t1, w1, s);
        c := CreateProducer(s, dest);
        if c.Some? {
          ReadyAfter(old(State()), old(rt.w), t1, w1, State(), rt.w, s, c.value, Resolve(TargetOf(cmd), View(old(State()))).value);
          return;
        }
        CollapsedAfter(old(State()), old(rt.w), t1, w1, State(), rt.w, {}, Wants(cmd, View(old(State()))));
      } else {
        c := None;
      }
      PrepareFailed(old(State()), old(rt.w), State(), rt.w, cmd, s);
    }

    method ConsumerForTarget(cmd: Command, s: Id) returns (c: Option<Id>)
      requires cmd.Receive?
      requires Valid() && Inv(State(), rt.w) && initialized && IsOut(State(), rt.w, s)
      modifies Repr
      ensures Valid() && Repr == old(Repr) && Inv(State(), rt.w)
      ensures c.Some? ==> initialized && Resolve(cmd.target, View(old(State()))).Some?
      ensures c.Some? ==> ConsumerReady(old(State()), old(rt.w), State(), rt.w, s, c.value,
                                        Resolve(cmd.target, View(old(State()))).value, cmd.selector, old(config).noLocal)
      ensures c.None? ==> InsideDone(old(State()), old(rt.w), State(), rt.w, cmd, s, 0, false)
    {
      hide Inv;
      var noLocal := config.noLocal;
      var found, dest := GetDestination(cmd.target, s);
      ghost var t1, w1 := State(), rt.w;
      if found {
        OutStays(old(State()), old(rt.w), t1, w1, s);
        c := CreateConsumer(s, dest, cmd.selector, noLocal);
        if c.Some? {
          ConsumerReadyAfter(old(State()), old(rt.w), t1, w1, State(), rt.w, s, c.value,
                             Resolve(cmd.target, View(old(State()))).value, cmd.selector, noLocal);
          return;
        }
        CollapsedAfter(old(State()), old(rt.w), t1, w1, State(), rt.w, {}, Wants(cmd, View(old(State()))));
      } else {
        c := None;
      }
      PrepareFailed(old(State()), old(rt.w), State(), rt.w, cmd, s);
    }

    /** A producer callback in its session: the producer is made and handed to the client. */
    method ProducerExecutor(cmd: Command, s: Id) returns (ok: bool, ghost k: nat)
      requires Valid() && Inv(State(), rt.w) && cmd.ExecuteProducer? && initialized
      requires IsOut(State(), rt.w, s) && rt.w.heap[s].mode == config.acknowledgeMode
      modifies Repr
      ensures Valid() && fresh(Repr - old(Repr)) && Inv(State(), rt.w)
      ensures InsideDone(old(State()), old(rt.w), State(), rt.w, cmd, s, k, ok)
      decreases cmd, 0, 0
    {
      hide Inv, InsideDone, WithinLease, Matches, PeakOfAll, AsksFor, Caching;
      ghost var t0, w0 := State(), rt.w;
      var c := ProducerForTarget(cmd, s);
      if c.None? { return false, 0; }
      ghost var t1, w1 := State(), rt.w;
      ghost var h := HandedBy(cmd, View(t0));
      HandedMatches(t0, w0, t1, w1, s, c.value, h);
      ok, k := RunBody(cmd.body, Some(Scope(s, c.value)), Some(h));
      ghost var t2, w2 := State(), rt.w;
      if ok {
        ProducerBodyDone(t0, w0, t1, w1, t2, w2, cmd, s, k);
      } else {
        CatchAndDestroy();
        ProducerBodyFailed(t0, w0, t1, w1, t2, w2, State(), rt.w, cmd, s, k);
      }
      k := k + 1;
    }

    /** A send in its session: the client's creator runs with
        the session out and can call the template again; then the message is sent. */
    method SendExecutor(cmd: Command, s: Id) returns (ok: bool, ghost k: nat)
      requires Valid() && Inv(State(), rt.w) && cmd.Send? && initialized
      requires IsOut(State(), rt.w, s) && rt.w.heap[s].mode == config.acknowledgeMode
      modifies Repr
      ensures Valid() && fresh(Repr - old(Repr)) && Inv(State(), rt.w)
      ensures InsideDone(old(State()), old(rt.w), State(), rt.w, cmd, s, k, ok)
      decreases cmd, 0, 0
    {
      hide Inv, InsideDone, WithinLease, Matches, PeakOfAll, AsksFor, Caching;
      ghost var t0, w0 := State(), rt.w;
      var c := ProducerForTarget(cmd, s);
      if c.None? { return false, 0; }
      ghost var t1, w1 := State(), rt.w;
      ghost var h := HandedBy(cmd, View(t0));
      HandedMatches(t0, w0, t1, w1, s, c.value, h);
      ok, k := RunBody(cmd.creator, None, None);
      ghost var t2, w2 := State(), rt.w;
      if !ok {
        CatchAndDestroy();
        CreatorFailed(t0, w0, t1, w1, t2, w2, State(), rt.w, cmd, s, k);
        return false, k + 1;
      }
      ScopeKept(t1, w1, t2, w2, Some(Scope(s, c.value)), Some(h));
      ok, k := SendCreated(cmd, s, c.value, t0, w0, t1, w1, h, k);
    }

    /** The send, once the message creator has run. */
    method SendCreated(cmd: Command, s: Id, c: Id, ghost t0: Template, ghost w0: World, ghost t1: Template, ghost w1: World,
                       ghost h: Handed, ghost kb: nat)
      returns (ok: bool, ghost k: nat)
      requires Valid() && Inv(State(), rt.w) && cmd.Send? && Resolve(cmd.target, View(t0)).Some? && h == HandedBy(cmd, View(t0))
      requires WithinLease(t0, w0, t1, w1, s, Wants(cmd, View(t0)))
      requires BodyDone(t1, w1, State(), rt.w, cmd.creator, None, kb, true)
      requires ScopeMatches(State(), rt.w, Some(Scope(s, c)), Some(h))
      modifies Repr
      ensures Valid() && Repr == old(Repr) && Inv(State(), rt.w)
      ensures InsideDone(t0, w0, State(), rt.w, cmd, s, k, ok)
    {
      hide Inv, BodyDone, InsideDone, WithinLease, Did;
      ghost var t2, w2 := State(), rt.w;
      ok := DoSend(s, c, cmd.payload, h);
      ghost var t3, w3 := State(), rt.w;
      if ok {
        SendDone(t0, w0, t1, w1, t2, w2, t3, w3, cmd, s, kb);
        k := kb + 2;
      } else {
        CatchAndDestroy();
        SendFailed(t0, w0, t1, w1, t2, w2, t3, w3, State(), rt.w, cmd, s, kb);
        k := kb + 1;
      }
    }

    /** A receive in its session. */
    method ReceiveExecutor(cmd: Command, s: Id) returns (ok: bool, ghost k: nat)
      requires Valid() && Inv(State(), rt.w) && cmd.Receive? && initialized
      requires IsOut(State(), rt.w, s) && rt.w.heap[s].mode == config.acknowledgeMode
      modifies Repr
      ensures Valid() && Repr == old(Repr) && Inv(State(), rt.w)
      ensures InsideDone(old(State()), old(rt.w), State(), rt.w, cmd, s, k, ok)
    {
      hide Inv;
      ghost var t0, w0 := State(), rt.w;
      var c := ConsumerForTarget(cmd, s);
      if c.None? { return false, 0; }
      ghost var t1, w1 := State(), rt.w;
      ghost var d := Resolve(cmd.target, View(t0)).value;
      SessionSame(t0, w0, t1, w1, s);
      ok := DoReceive(s, c.value, d, cmd.selector, t0.config.noLocal);
      ghost var t2, w2 := State(), rt.w;
      if ok {
        ReceiveDone(t0, w0, t1, w1, t2, w2, cmd, s);
        k := 2;
      } else {
        CatchAndDestroy();
        ReceiveFailed(t0, w0, t1, w1, t2, w2, State(), rt.w, cmd, s);
        k := 1;
      }
    }

    /** A callback's steps, until one throws. */
    method RunBody(cmds: seq<Command>, scope: Option<Scope>, ghost handed: Option<Handed>) returns (ok: bool, ghost k: nat)
      requires Valid() && Inv(State(), rt.w) && ScopeMatches(State(), rt.w, scope, handed)
      modifies Repr
      ensures Valid() && fresh(Repr - old(Repr)) && Inv(State(), rt.w)
      ensures BodyDone(old(State()), old(rt.w), State(), rt.w, cmds, handed, k, ok)
      decreases cmds
    {
      hide Inv;
      ghost var t0, w0 := State(), rt.w;
      if cmds == [] {
        BodyEmpty(t0, w0, handed);
        return true, 0;
      }
      ok, k := Call(cmds[0], scope, handed);
      ghost var t1, w1, k0 := State(), rt.w, k;
      if !ok {
        BodyStops(t0, w0, t1, w1, cmds, handed, k0);
        return;
      }
      ScopeKept(t0, w0, t1, w1, scope, handed);
      ok, k := RunBody(cmds[1..], scope, handed);
      BodyContinues(t0, w0, t1, w1, State(), rt.w, cmds, handed, k0, k, ok);
      k := k0 + k;
    }

    /** One call on the template, or one step of a callback. */
    method Call(cmd: Command, scope: Option<Scope>, ghost handed: Option<Handed>) returns (ok: bool, ghost k: nat)
      requires Valid() && Inv(State(), rt.w) && ScopeMatches(State(), rt.w, scope, handed)
      modifies Repr
      ensures Valid() && fresh(Repr - old(Repr)) && Inv(State(), rt.w)
      ensures CallDone(old(State()), old(rt.w), State(), rt.w, cmd, handed, k, ok)
      ensures !ok ==> if NeedsSession(cmd) then Pristine(State(), rt.w) else State() == old(State())
      decreases cmd, 2
    {
      hide Inv;
      ghost var t0, w0 := State(), rt.w;
      match cmd
      case Configure(x) =>
        Configure(x);
        ConfigureDone(t0, w0, x, handed);
        ok, k := true, 0;
      case Throw =>
        NothingDone(t0, w0, cmd, handed);
        ok, k := false, 0;
      case UseProducer(payload) =>
        if scope.None? {
          NothingDone(t0, w0, cmd, handed);
          ok, k := false, 0;
        } else {
          ok := UseProducer(scope.value.session, scope.value.producer, payload, handed.value);
          UseDone(t0, w0, State(), rt.w, payload, handed.value, ok);
          k := if ok then 1 else 0;
        }
      case _ =>
        ok, k := Execute(cmd, handed);
    }
  }
}
