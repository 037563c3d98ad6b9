/** SessionPool: a FIFO pool of leased sessions of one connection and acknowledge mode. */
module SessionPools {
  import opened Wrappers
  import opened Runtime
  import opened ResourceLifecycleManagers
  import opened PooledSessions

  /** The pool's two lists: idle sessions in the order they will be handed out, and all
      sessions ever created for it. */
  datatype Pool = Pool(available: seq<Id>, sessions: seq<Id>)

  const EMPTY_POOL := Pool([], [])

  /** The session a take hands out when `newId` is the one that would be created. */
  function Taken(p: Pool, newId: Id): Id {
    if p.available == [] then newId else p.available[0]
  }

  function Take(p: Pool, newId: Id): Pool {
    if p.available == [] then Pool([], p.sessions + [newId]) else Pool(p.available[1..], p.sessions)
  }

  function Return(p: Pool, s: Id): Pool {
    Pool(p.available + [s], p.sessions)
  }

  /** Sessions are listed once, idle ones are listed once and belong to the pool. */
  ghost predicate WellFormed(p: Pool) {
    && Distinct(p.sessions) && Distinct(p.available)
    && forall s :: s in p.available ==> s in p.sessions
  }

  /** The sessions that are out. */
  function Leased(p: Pool): set<Id> {
    SetOf(p.sessions) - SetOf(p.available)
  }

  lemma TakeWellFormed(p: Pool, newId: Id)
    requires WellFormed(p) && newId !in p.sessions
    ensures var s, p' := Taken(p, newId), Take(p, newId);
            && WellFormed(p') && s in p'.sessions && s !in p'.available
            && s !in Leased(p) && Leased(p') == Leased(p) + {s}
  {
    if p.available != [] {
      var rest := p.available[1..];
      assert p.available == [p.available[0]] + rest;
      assert p.available[0] !in rest;
    } else {
      assert SetOf(p.sessions + [newId]) == SetOf(p.sessions) + {newId};
    }
  }

  lemma ReturnWellFormed(p: Pool, s: Id)
    requires WellFormed(p) && s in Leased(p)
    ensures WellFormed(Return(p, s)) && Leased(Return(p, s)) == Leased(p) - {s}
  {
    assert SetOf(p.available + [s]) == SetOf(p.available) + {s};
  }

  // ---- Every interleaving of takes and returns by any number of clients ----

  type Client = nat

  datatype Step =
    | TakeSession(client: Client)
    | TakeFails(client: Client)   // no session was idle and the connection could not create one
    | ReturnSession(session: Id)

  /** A pool, who holds each leased session, and the next session to be created. */
  datatype Usage = Usage(pool: Pool, holder: map<Id, Client>, newId: Id)

  /** A failing take needs an empty pool; a session is closed once per lease. */
  predicate Enabled(u: Usage, step: Step) {
    match step
    case TakeSession(_) => true
    case TakeFails(_) => u.pool.available == []
    case ReturnSession(s) => s in u.holder
  }

  function After(u: Usage, step: Step): Usage {
    match step
    case TakeSession(c) =>
      Usage(Take(u.pool, u.newId), u.holder[Taken(u.pool, u.newId) := c],
            if u.pool.available == [] then u.newId + 1 else u.newId)
    case TakeFails(_) => u
    case ReturnSession(s) => Usage(Return(u.pool, s), u.holder - {s}, u.newId)
  }

  predicate Legal(u: Usage, steps: seq<Step>)
    decreases |steps|
  {
    steps == [] || (Enabled(u, steps[0]) && Legal(After(u, steps[0]), steps[1..]))
  }

  function Run(u: Usage, steps: seq<Step>): Usage
    decreases |steps|
  {
    if steps == [] then u else Run(After(u, steps[0]), steps[1..])
  }

  /** Idle and leased sessions partition the pool's sessions. */
  ghost predicate Partitioned(u: Usage) {
    && WellFormed(u.pool)
    && u.holder.Keys == Leased(u.pool)
    && (forall s :: s in u.pool.sessions ==> s < u.newId)
    && |u.pool.sessions| == |u.pool.available| + |u.holder|
  }

  lemma HolderGrows(holder: map<Id, Client>, s: Id, c: Client)
    requires s !in holder
    ensures holder[s := c].Keys == holder.Keys + {s} && |holder[s := c]| == |holder| + 1
  {
    assert holder[s := c].Keys == holder.Keys + {s};
  }

  lemma TakeBounds(p: Pool, newId: Id)
    requires forall s :: s in p.sessions ==> s < newId
    ensures forall s :: s in Take(p, newId).sessions ==> s < if p.available == [] then newId + 1 else newId
    ensures newId !in p.sessions
    ensures |Take(p, newId).sessions| - |Take(p, newId).available| == |p.sessions| - |p.available| + 1
  {
  }

  lemma TakePartitioned(u: Usage, c: Client)
    requires Partitioned(u)
    ensures Partitioned(After(u, TakeSession(c)))
    ensures |After(u, TakeSession(c)).holder| == |u.holder| + 1
  {
    TakeBounds(u.pool, u.newId);
    TakeWellFormed(u.pool, u.newId);
    HolderGrows(u.holder, Taken(u.pool, u.newId), c);
    var u' := After(u, TakeSession(c));
    assert u'.pool == Take(u.pool, u.newId);
  }

  lemma ReturnPartitioned(u: Usage, s: Id)
    requires Partitioned(u) && s in u.holder
    ensures Partitioned(After(u, ReturnSession(s)))
    ensures |After(u, ReturnSession(s)).holder| == |u.holder| - 1
  {
    ReturnWellFormed(u.pool, s);
    assert (u.holder - {s}).Keys == u.holder.Keys - {s};
  }

  lemma StepPartitioned(u: Usage, step: Step)
    requires Partitioned(u) && Enabled(u, step)
    ensures Partitioned(After(u, step))
    ensures |After(u, step).holder| == |u.holder| + Change(step)
  {
    match step
    case TakeSession(c) => TakePartitioned(u, c);
    case TakeFails(_) =>
    case ReturnSession(s) => ReturnPartitioned(u, s);
  }

  /** Over every run idle and leased sessions partition the pool. */
  lemma {:induction false} RunPartitioned(u: Usage, steps: seq<Step>)
    requires Partitioned(u) && Legal(u, steps)
    ensures Partitioned(Run(u, steps))
    decreases |steps|
  {
    if steps != [] {
      StepPartitioned(u, steps[0]);
      RunPartitioned(After(u, steps[0]), steps[1..]);
    }
  }

  /** After any run, whoever takes next gets a session that nobody holds: no session ever has
      two holders. */
  lemma LeasesExclusive(u: Usage, steps: seq<Step>)
    requires Partitioned(u) && Legal(u, steps)
    ensures var v := Run(u, steps); Taken(v.pool, v.newId) !in v.holder
  {
    RunPartitioned(u, steps);
    var v := Run(u, steps);
    TakeBounds(v.pool, v.newId);
    TakeWellFormed(v.pool, v.newId);
  }

  /** What a step does to the number of sessions out. */
  function Change(step: Step): int {
    match step case TakeSession(_) => 1 case TakeFails(_) => 0 case ReturnSession(_) => -1
  }

  /** The largest number of sessions out at once, counting from `out` already out; what the
      clients do determines it, whichever sessions they are given. */
  function PeakDemand(steps: seq<Step>, out: int): int {
    if steps == [] then out
    else
      var rest := PeakDemand(steps[1..], out + Change(steps[0]));
      if rest < out then out else rest
  }

  lemma {:induction false} CreatedIsPeak(u: Usage, steps: seq<Step>)
    requires Partitioned(u) && Legal(u, steps)
    ensures var peak := PeakDemand(steps, |u.holder|);
            |Run(u, steps).pool.sessions| == if peak < |u.pool.sessions| then |u.pool.sessions| else peak
    decreases |steps|
  {
    if steps != [] {
      var u' := After(u, steps[0]);
      StepPartitioned(u, steps[0]);
      CreatedIsPeak(u', steps[1..]);
      PeakAtLeast(steps[1..], |u'.holder|);
    }
  }

  lemma {:induction false} PeakAtLeast(steps: seq<Step>, out: int)
    ensures PeakDemand(steps, out) >= out
  {
  }

  /** From an empty pool, the number of sessions ever created is the peak demand. */
  lemma PoolSizeIsPeakDemand(steps: seq<Step>)
    requires Legal(Usage(EMPTY_POOL, map[], 0), steps)
    ensures |Run(Usage(EMPTY_POOL, map[], 0), steps).pool.sessions| == PeakDemand(steps, 0)
  {
    var u := Usage(EMPTY_POOL, map[], 0);
    assert Partitioned(u);
    CreatedIsPeak(u, steps);
    PeakAtLeast(steps, 0);
  }

  /** The sessions handed out along a run, in order. */
  function HandedOut(u: Usage, steps: seq<Step>): seq<Id>
    decreases |steps|
  {
    if steps == [] then []
    else
      (if steps[0].TakeSession? then [Taken(u.pool, u.newId)] else []) + HandedOut(After(u, steps[0]), steps[1..])
  }

  lemma {:induction false} HandedOutInOrder(u: Usage, steps: seq<Step>, k: nat)
    requires k < |u.pool.available| && k < |HandedOut(u, steps)|
    ensures HandedOut(u, steps)[k] == u.pool.available[k]
    decreases |steps|
  {
    var u' := After(u, steps[0]);
    if steps[0].TakeSession? {
      if k > 0 { HandedOutInOrder(u', steps[1..], k - 1); }
    } else {
      HandedOutInOrder(u', steps[1..], k);
    }
  }

  /** FIFO reuse: the session at position k of the idle list is handed out by the (k+1)-th take
      from now and by no earlier one, whatever is returned in between. */
  lemma FifoReuse(u: Usage, steps: seq<Step>, k: nat)
    requires WellFormed(u.pool)
    requires k < |u.pool.available| && k < |HandedOut(u, steps)|
    ensures HandedOut(u, steps)[k] == u.pool.available[k]
    ensures u.pool.available[k] !in HandedOut(u, steps)[..k]
  {
    HandedOutInOrder(u, steps, k);
    forall j | 0 <= j < k ensures HandedOut(u, steps)[j] != u.pool.available[k] {
      HandedOutInOrder(u, steps, j);
    }
  }

  // ---- The pool object ----

  datatype PoolState = PoolState(connection: Id, mode: PoolMode, pool: Pool)

  ghost predicate LiveConnection(w: World, c: Id) {
    c in w.live && c < |w.heap| && w.heap[c].Connection?
  }

  /** The world after a raw session is created and wrapped. */
  function WithSession(w: World, c: Id, m: PoolMode): World {
    var n := |w.heap|;
    Alloc(Alloc(w, Session(c, m)), PooledSession(n, m)).(caches := w.caches[n + 1 := Caches(map[], map[])])
  }

  class SessionPool {
    const connection: Id
    const acknowledgeMode: PoolMode
    const rt: CmsRuntime
    const resourceLifecycleManager: ResourceLifecycleManager
    var available: seq<Id>
    var sessions: seq<Id>

    ghost function State(): PoolState
      reads this
    {
      PoolState(connection, acknowledgeMode, Pool(available, sessions))
    }

    constructor (connection: Id, mode: PoolMode, rt: CmsRuntime, manager: ResourceLifecycleManager)
      ensures State() == PoolState(connection, mode, EMPTY_POOL)
      ensures this.rt == rt && this.resourceLifecycleManager == manager
    {
      this.connection := connection;
      this.acknowledgeMode := mode;
      this.rt := rt;
      this.resourceLifecycleManager := manager;
      available, sessions := [], [];
    }

    /** The head of the idle list; when it is empty, a new session of the pool's mode, which the
        manager owns and the pool wraps. A connection that cannot create one leaves all as it was. */
    method TakeSession() returns (s: Option<Id>)
      requires Sound(rt.w) && LiveConnection(rt.w, connection)
      modifies this, rt, resourceLifecycleManager
      ensures Sound(rt.w)
      ensures s.Some? ==> s.value == Taken(old(State().pool), |old(rt.w).heap| + 1)
      ensures s.Some? ==> State().pool == Take(old(State().pool), |old(rt.w).heap| + 1)
      ensures s.None? ==> old(available) == [] && State() == old(State())
      ensures rt.w ==
              if old(available) != [] then old(rt.w)
              else if s.None? then old(rt.w).(faults := old(rt.w).faults + 1)
              else WithSession(old(rt.w), connection, acknowledgeMode)
      ensures resourceLifecycleManager.Contents() ==
              if old(available) != [] || s.None? then old(resourceLifecycleManager.Contents())
              else AddTo(old(resourceLifecycleManager.Contents()), Session(connection, acknowledgeMode), |old(rt.w).heap|)
    {
      if available == [] {
        var session := rt.Create(Session(connection, acknowledgeMode));
        if session.None? { return None; }
        resourceLifecycleManager.AddSession(session.value);
        var pooled := rt.NewPooledSession(session.value, acknowledgeMode);
        sessions := sessions + [pooled];
        s := Some(pooled);
      } else {
        s := Some(available[0]);
        available := available[1..];
      }
    }

    method ReturnSession(s: Id)
      modifies this
      ensures State().pool == Return(old(State().pool), s)
    {
      available := available + [s];
    }

    /** ~SessionPool: every pooled session goes, with its cache wrappers; raw resources stay
        with the lifecycle manager. */
    method Destroy()
      requires Sound(rt.w) && CachesExact(rt.w) && Distinct(sessions)
      requires forall s :: s in sessions ==> s in rt.w.caches
      modifies this, rt
      ensures Sound(rt.w) && CachesExact(rt.w) && State().pool == EMPTY_POOL
      ensures WithoutSessions(old(rt.w), rt.w, old(sessions))
    {
      DeleteSessions(rt, sessions);
      sessions, available := [], [];
    }
  }

  ghost predicate WithoutSessions(w0: World, w1: World, gone: seq<Id>) {
    && w1 == w0.(live := w1.live, freed := w1.freed, caches := w1.caches)
    && forall id :: id in w1.live <==> (id in w0.live && (id < |w0.heap| ==> !InPool(w0.heap[id], id, gone)))
  }

  method DeleteSessions(rt: CmsRuntime, sessions: seq<Id>)
    requires Sound(rt.w) && CachesExact(rt.w) && Distinct(sessions)
    requires forall s :: s in sessions ==> s in rt.w.caches
    modifies rt
    ensures Sound(rt.w) && CachesExact(rt.w)
    ensures WithoutSessions(old(rt.w), rt.w, sessions)
  {
    ghost var w0 := rt.w;
    for i := 0 to |sessions|
      invariant Sound(rt.w) && CachesExact(rt.w)
      invariant WithoutSessions(w0, rt.w, sessions[..i])
      invariant forall j :: i <= j < |sessions| ==> sessions[j] in rt.w.caches
    {
      ghost var w1 := rt.w;
      DeletePooledSession(rt, sessions[i]);
      OneLessSession(w0, w1, rt.w, sessions, i);
    }
    assert sessions[..|sessions|] == sessions;
  }

  lemma OneLessSession(w0: World, w1: World, w2: World, sessions: seq<Id>, i: nat)
    requires i < |sessions| && Distinct(sessions)
    requires Sound(w1) && CachesExact(w1) && sessions[i] in w1.caches
    requires forall j :: i <= j < |sessions| ==> sessions[j] in w1.caches
    requires WithoutSessions(w0, w1, sessions[..i])
    requires OnlyFreed(w1, w2, Belongings(w1, sessions[i]))
    ensures WithoutSessions(w0, w2, sessions[..i + 1])
    ensures forall j :: i < j < |sessions| ==> sessions[j] in w2.caches
  {
    FreedIsWithout(w1, w2, sessions[i]);
    forall r: Resource, id: Id
      ensures InPool(r, id, sessions[..i + 1]) <==>
              InPool(r, id, sessions[..i]) || id == sessions[i] || BelongsTo(r, sessions[i])
    {
      InPoolSnoc(r, id, sessions, i);
    }
  }

  lemma InPoolSnoc(r: Resource, id: Id, sessions: seq<Id>, i: nat)
    requires i < |sessions|
    ensures InPool(r, id, sessions[..i + 1]) <==>
            InPool(r, id, sessions[..i]) || id == sessions[i] || BelongsTo(r, sessions[i])
  {
    assert sessions[..i + 1] == sessions[..i] + [sessions[i]];
  }

  /** A pooled session of the list, or a cache wrapper of one. */
  predicate InPool(r: Resource, id: Id, sessions: seq<Id>) {
    id in sessions || ((r.CachedProducer? || r.CachedConsumer?) && r.owner in sessions)
  }
}
