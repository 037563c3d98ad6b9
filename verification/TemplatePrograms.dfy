/** Whole lives of a template: a client makes call after call, whatever fails, and compares what
    the broker saw with a template that caches nothing. */
module TemplatePrograms {
  import opened Wrappers
  import opened Destinations
  import opened CacheKeys
  import opened Strings
  import opened Runtime
  import opened PooledSessions
  import opened Commands
  import opened TemplateState
  import opened TemplateRuns
  import opened TemplateSteps
  import opened TemplateCalls
  import opened TemplateOwnership
  import opened CmsTemplates

  /** What a client learns from a series of calls, what the broker learns from it, how many calls a
      failure of the provider ended, and what sessions were asked for. */
  datatype Report = Report(settings: Settings, events: seq<Event>, oks: seq<bool>, starved: nat, wants: set<Want>)

  /** The series on the naive template; the n-th call makes at most `fuels[n]` provider calls
      before one fails. A client goes on after a call has thrown. */
  function NaiveProgram(calls: seq<Command>, s: Settings, fuels: seq<nat>): (r: Report)
    requires |fuels| == |calls|
    ensures |r.oks| == |calls|
  {
    if calls == [] then Report(s, [], [], 0, {})
    else
      var n := |calls| - 1;
      var r := NaiveProgram(calls[..n], s, fuels[..n]);
      var o := Naive(calls[n], None, r.settings, fuels[n]);
      Report(o.settings, r.events + o.events, r.oks + [o.ok], r.starved + (if o.starved then 1 else 0), r.wants + o.wants)
  }

  /** The largest nesting of sessions of mode `m` since the last failure. */
  function PeakSinceFailure(calls: seq<Command>, s: Settings, fuels: seq<nat>, m: PoolMode): nat
    requires |fuels| == |calls|
  {
    if calls == [] then 0
    else
      var n := |calls| - 1;
      var before := PeakSinceFailure(calls[..n], s, fuels[..n], m);
      var r := NaiveProgram(calls[..n], s, fuels[..n]);
      if Naive(calls[n], None, r.settings, fuels[n]).ok then Max(before, Demand(calls[n], r.settings.config, m))
      else if NeedsSession(calls[n]) then 0
      else before
  }

  /** The template after a series of calls, next to the naive one. */
  ghost predicate ProgramDone(t0: Template, w0: World, t1: Template, w1: World,
                              calls: seq<Command>, oks: seq<bool>, fuels: seq<nat>)
    requires |fuels| == |calls|
  {
    var r := NaiveProgram(calls, View(t0), fuels);
    && View(t1) == r.settings && oks == r.oks
    && w0.events <= w1.events && ServesAll(w1.events[|w0.events|..], r.events)
    && w1.faults == w0.faults + r.starved
    && AsksFor(w0, w1, r.wants)
    && |t1.pools| == NUM_SESSION_POOLS
    && forall m: PoolMode :: LeaseCount(t1, m) == 0 && Created(t1, m) == PeakSinceFailure(calls, View(t0), fuels, m)
  }

  lemma ProgramStarts(t: Template, w: World)
    requires Pristine(t, w)
    ensures ProgramDone(t, w, t, w, [], [], [])
  {
    assert w.events[|w.events|..] == [];
  }

  lemma ProgramContinues(t0: Template, w0: World, t1: Template, w1: World, t2: Template, w2: World,
                         calls: seq<Command>, oks: seq<bool>, fuels: seq<nat>, call: Command, k: nat, ok: bool)
    requires |fuels| == |calls| && ProgramDone(t0, w0, t1, w1, calls, oks, fuels)
    requires CallDone(t1, w1, t2, w2, call, None, k, ok)
    requires !ok && NeedsSession(call) ==> Pristine(t2, w2)
    requires !ok && !NeedsSession(call) ==> t2 == t1
    ensures ProgramDone(t0, w0, t2, w2, calls + [call], oks + [ok], fuels + [k])
  {
    var more, fuels' := calls + [call], fuels + [k];
    assert more[..|more| - 1] == calls && fuels'[..|more| - 1] == fuels;
    var r := NaiveProgram(calls, View(t0), fuels);
    var o := Naive(call, None, r.settings, k);
    EventsJoin(w0, w1, w2, r.events, o.events);
    assert NaiveProgram(more, View(t0), fuels') ==
           Report(o.settings, r.events + o.events, r.oks + [o.ok], r.starved + (if o.starved then 1 else 0), r.wants + o.wants);
    if ok { assert Reached(t1, t2, 0, Demand(call, t1.config, 0)); }
    forall m: PoolMode
      ensures LeaseCount(t2, m) == 0 && Created(t2, m) == PeakSinceFailure(more, View(t0), fuels', m)
    {
      if ok { assert Reached(t1, t2, m, Demand(call, t1.config, m)); }
    }
  }

  // ---- When the broker sees exactly the wanted events ----

  function WantsSoFar(w: World): set<Want> {
    set a | a in w.asked :: a.want
  }

  lemma {:induction false} ProgramWanted(calls: seq<Command>, s: Settings, fuels: seq<nat>)
    requires |fuels| == |calls|
    ensures AllWanted(NaiveProgram(calls, s, fuels).events, NaiveProgram(calls, s, fuels).wants)
  {
    if calls != [] {
      var n := |calls| - 1;
      ProgramWanted(calls[..n], s, fuels[..n]);
      NaiveWanted(calls[n], None, NaiveProgram(calls[..n], s, fuels[..n]).settings, fuels[n]);
    }
  }

  /** What went through a producer or consumer had been asked for. */
  lemma DeliveredWasAsked(w: World, i: nat)
    requires Sound(w) && i < |w.events|
    ensures WantOf(w.events[i].event) in WantsSoFar(w)
  {
    var d := w.events[i];
    assert WentThrough(w.heap, d);
    var raw := if d.event.Sent? then w.heap[d.via].rawProducer else w.heap[d.via].rawConsumer;
    assert AskFor(w.heap[raw]) <= w.asked;
    var a := Ask(w.heap[raw].session, WantOf(d.event));
    assert a in AskFor(w.heap[raw]);
    assert a in w.asked;
  }

  /** Over any run every raw producer and consumer that exists is what its own session was
      asked for, and what was asked for is what the program wants. */
  lemma OnlyWantedResources(t0: Template, w0: World, t1: Template, w1: World,
                            calls: seq<Command>, oks: seq<bool>, fuels: seq<nat>, id: Id)
    requires |fuels| == |calls| && ProgramDone(t0, w0, t1, w1, calls, oks, fuels) && Sound(w1) && id < |w1.heap|
    ensures var wants := NaiveProgram(calls, View(t0), fuels).wants + WantsSoFar(w0);
            match w1.heap[id]
            case Producer(s, d, _) => Ask(s, Sending(d)) in w1.asked && Sending(d) in wants
            case Consumer(s, d, selector, noLocal, _) =>
              Ask(s, Receiving(d, selector, noLocal)) in w1.asked && Receiving(d, selector, noLocal) in wants
            case _ => true
  {
    assert AskFor(w1.heap[id]) <= w1.asked;
    match w1.heap[id]
    case Producer(s, d, _) => assert Ask(s, Sending(d)) in AskFor(w1.heap[id]);
    case Consumer(s, d, selector, noLocal, _) =>
      assert Ask(s, Receiving(d, selector, noLocal)) in AskFor(w1.heap[id]);
    case _ =>
  }

  /** If no two wants of the run share a cache entry, the broker sees the wanted events, each
      with the very destination, selector and noLocal flag that were wanted. */
  lemma ClashFreeRunsAreExact(w0: World, w1: World, wanted: seq<Event>, wants: set<Want>)
    requires w0.events <= w1.events && ServesAll(w1.events[|w0.events|..], wanted) && AllWanted(wanted, wants)
    requires Sound(w1) && AsksFor(w0, w1, wants) && ClashFree(wants + WantsSoFar(w0))
    ensures Seen(w1.events[|w0.events|..]) == wanted
  {
    var actual := w1.events[|w0.events|..];
    forall i | 0 <= i < |actual| ensures actual[i].event == wanted[i] {
      assert actual[i] == w1.events[|w0.events| + i];
      DeliveredWasAsked(w1, |w0.events| + i);
      assert WantOf(wanted[i]) in wants;
      ServedMeansShared(actual[i].event, wanted[i]);
    }
  }

  /** The series ended with a call on the template that failed. */
  predicate LastFailed(calls: seq<Command>, oks: seq<bool>)
    requires |oks| == |calls|
  {
    calls != [] && NeedsSession(calls[|calls| - 1]) && !oks[|calls| - 1]
  }

  /** A client's series of calls on a template that has just been built or has just failed: the
      broker sees what the naive template would have shown it, as far as cache entries can tell,
      and exactly that if no two wants share an entry; every pool is as large as the deepest
      nesting since the last failure; and the invariant holds throughout. */
  method RunProgram(t: CmsTemplate, calls: seq<Command>) returns (oks: seq<bool>, ghost fuels: seq<nat>)
    requires t.Valid() && Inv(t.State(), t.rt.w) && Pristine(t.State(), t.rt.w)
    modifies t.Repr
    ensures t.Valid() && fresh(t.Repr - old(t.Repr)) && Inv(t.State(), t.rt.w)
    ensures |fuels| == |calls|
    ensures ProgramDone(old(t.State()), old(t.rt.w), t.State(), t.rt.w, calls, oks, fuels)
    ensures var r := NaiveProgram(calls, View(old(t.State())), fuels);
            ClashFree(r.wants + WantsSoFar(old(t.rt.w))) ==> Seen(t.rt.w.events[|old(t.rt.w).events|..]) == r.events
    ensures |oks| == |calls| && (LastFailed(calls, oks) ==> Pristine(t.State(), t.rt.w))
  {
    hide Inv;
    ghost var t0, w0 := t.State(), t.rt.w;
    ProgramStarts(t0, w0);
    oks, fuels := [], [];
    for i := 0 to |calls|
      invariant t.Valid() && fresh(t.Repr - old(t.Repr)) && Inv(t.State(), t.rt.w)
      invariant |fuels| == i
      invariant ProgramDone(t0, w0, t.State(), t.rt.w, calls[..i], oks, fuels)
      invariant |oks| == i && (LastFailed(calls[..i], oks) ==> Pristine(t.State(), t.rt.w))
    {
      ghost var t1, w1 := t.State(), t.rt.w;
      var ok;
      ghost var k;
      ok, k := t.Call(calls[i], None, None);
      ProgramContinues(t0, w0, t1, w1, t.State(), t.rt.w, calls[..i], oks, fuels, calls[i], k, ok);
      oks, fuels := oks + [ok], fuels + [k];
      assert calls[..i + 1] == calls[..i] + [calls[i]];
    }
    assert calls[..|calls|] == calls;
    ProgramExact(t0, w0, t.State(), t.rt.w, calls, oks, fuels);
  }

  lemma ProgramExact(t0: Template, w0: World, t1: Template, w1: World, calls: seq<Command>, oks: seq<bool>, fuels: seq<nat>)
    requires |fuels| == |calls| && ProgramDone(t0, w0, t1, w1, calls, oks, fuels) && Inv(t1, w1)
    ensures var r := NaiveProgram(calls, View(t0), fuels);
            ClashFree(r.wants + WantsSoFar(w0)) ==> Seen(w1.events[|w0.events|..]) == r.events
  {
    var r := NaiveProgram(calls, View(t0), fuels);
    ProgramWanted(calls, View(t0), fuels);
    if ClashFree(r.wants + WantsSoFar(w0)) { ClashFreeRunsAreExact(w0, w1, r.events, r.wants); }
  }

  /** What the world shows of a whole life, next to the naive program. */
  ghost predicate Lived(w: World, calls: seq<Command>, s: Settings, oks: seq<bool>, fuels: seq<nat>)
    requires |fuels| == |calls|
  {
    var r := NaiveProgram(calls, s, fuels);
    && oks == r.oks && ServesAll(w.events, r.events)
    && w.faults == r.starved && WantsSoFar(w) <= r.wants
    && (ClashFree(r.wants) ==> Seen(w.events) == r.events)
  }

  /** A template is built, used and destroyed: calls ended and events came as on the naive
      template, and everything ever created was freed exactly once, but for the messages that
      the client received, which live on. */
  method Lifetime(hasFactory: bool, calls: seq<Command>) returns (t: CmsTemplate, oks: seq<bool>, ghost fuels: seq<nat>)
    ensures Sound(t.rt.w)
    ensures forall id: Id :: id < |t.rt.w.heap| ==>
              if id in t.rt.w.live then t.rt.w.heap[id].Message? && id in t.rt.w.delivered && id !in t.rt.w.freed
              else id !in t.rt.w.delivered && Occurrences(t.rt.w.freed, id) == 1
    ensures t.rt.w.delivered <= t.rt.w.live
    ensures |fuels| == |calls| && Lived(t.rt.w, calls, Settings(DefaultConfig(hasFactory), None), oks, fuels)
  {
    t := new CmsTemplate(hasFactory);
    ghost var t0, w0 := t.State(), t.rt.w;
    oks, fuels := RunProgram(t, calls);
    LifeLived(t0, t.State(), t.rt.w, calls, oks, fuels);
    t.CatchAndDestroy();
    EndOfLife(t.State(), t.rt.w);
  }

  lemma LifeLived(t0: Template, t1: Template, w1: World, calls: seq<Command>, oks: seq<bool>, fuels: seq<nat>)
    requires |fuels| == |calls| && ProgramDone(t0, EMPTY_WORLD, t1, w1, calls, oks, fuels) && Inv(t1, w1)
    ensures Lived(w1, calls, View(t0), oks, fuels)
  {
    var r := NaiveProgram(calls, View(t0), fuels);
    ProgramExact(t0, EMPTY_WORLD, t1, w1, calls, oks, fuels);
    assert w1.events[|EMPTY_WORLD.events|..] == w1.events;
    assert r.wants + WantsSoFar(EMPTY_WORLD) == r.wants;
  }

  lemma EndOfLife(t: Template, w: World)
    requires Inv(t, w) && Pristine(t, w)
    ensures forall id: Id :: id < |w.heap| ==>
              if id in w.live then w.heap[id].Message? && id in w.delivered && id !in w.freed
              else id !in w.delivered && Occurrences(w.freed, id) == 1
  {
    forall id: Id | id < |w.heap| ensures Occurrences(w.freed, id) == if id in w.live then 0 else 1 {
      EverythingAccountedFor(t, w, id);
    }
  }

  // ---- Readings of the result ----

  /** A run whose wants hold no plain and temporary destination of one domain and name, and no
      separator where it matters, is exact. */
  lemma PlainRunsAreExact(w0: World, w1: World, wanted: seq<Event>, wants: set<Want>)
    requires w0.events <= w1.events && ServesAll(w1.events[|w0.events|..], wanted) && AllWanted(wanted, wants)
    requires Sound(w1) && AsksFor(w0, w1, wants) && WantsSoFar(w0) <= wants
    requires NoTwins(wants) && forall a :: a in wants ==> '?' !in a.dest.physicalName
    requires forall a :: a in wants && a.Receiving? ==>
               !Contains(a.dest.physicalName, SEPARATOR) && !Contains(BeforeOption(a.selector), SEPARATOR)
    ensures Seen(w1.events[|w0.events|..]) == wanted
  {
    PlainWantsAreClashFree(wants);
    assert wants + WantsSoFar(w0) == wants;
    ClashFreeRunsAreExact(w0, w1, wanted, wants);
  }

  /** When the provider never fails, how many steps it was granted does not matter. */
  lemma {:induction false} ReliableProvider(calls: seq<Command>, s: Settings, fuels: seq<nat>, ample: seq<nat>)
    requires |fuels| == |calls| == |ample| && forall i :: 0 <= i < |fuels| ==> fuels[i] <= ample[i]
    requires NaiveProgram(calls, s, fuels).starved == 0
    ensures NaiveProgram(calls, s, ample) == NaiveProgram(calls, s, fuels)
  {
    if calls != [] {
      var n := |calls| - 1;
      ReliableProvider(calls[..n], s, fuels[..n], ample[..n]);
      var r := NaiveProgram(calls[..n], s, fuels[..n]);
      MoreFuel(calls[n], None, r.settings, fuels[n], ample[n] - fuels[n]);
    }
  }

  // ---- After a failure ----

  lemma {:induction false} ProgramsJoin(a: seq<Command>, b: seq<Command>, s: Settings, f: seq<nat>, g: seq<nat>)
    requires |a| == |f| && |b| == |g|
    ensures var r := NaiveProgram(a, s, f);
            var q := NaiveProgram(b, r.settings, g);
            NaiveProgram(a + b, s, f + g) ==
            Report(q.settings, r.events + q.events, r.oks + q.oks, r.starved + q.starved, r.wants + q.wants)
    decreases |b|
  {
    hide Naive;
    if b == [] {
      assert a + b == a && f + g == f;
    } else {
      var n := |b| - 1;
      assert (a + b)[..|a + b| - 1] == a + b[..n] && (f + g)[..|a + b| - 1] == f + g[..n];
      ProgramsJoin(a, b[..n], s, f, g[..n]);
    }
  }

  lemma FailureForgets(cmd: Command, s: Settings, k: nat)
    requires NeedsSession(cmd) && !Naive(cmd, None, s, k).ok
    ensures Naive(cmd, None, s, k).settings.client.None?
  {
  }

  lemma {:induction false} PeakAfterFailure(a: seq<Command>, b: seq<Command>, s: Settings, f: seq<nat>, g: seq<nat>, m: PoolMode)
    requires |a| == |f| && |b| == |g| && PeakSinceFailure(a, s, f, m) == 0
    ensures PeakSinceFailure(a + b, s, f + g, m) == PeakSinceFailure(b, NaiveProgram(a, s, f).settings, g, m)
    decreases |b|
  {
    if b == [] {
      assert a + b == a && f + g == f;
    } else {
      var n := |b| - 1;
      assert (a + b)[..|a + b| - 1] == a + b[..n] && (f + g)[..|a + b| - 1] == f + g[..n];
      PeakAfterFailure(a, b[..n], s, f, g[..n], m);
      ProgramsJoin(a, b[..n], s, f, g[..n]);
    }
  }

  /** After a call that failed, whatever preceded it, the template behaves as a new one with the
      properties it then has: the same outcomes and events, and pools that grow from nothing.
      A default destination object that the client had supplied is forgotten. */
  lemma LikeNewAfterFailure(a: seq<Command>, b: seq<Command>, s: Settings, f: seq<nat>, g: seq<nat>)
    requires |a| == |f| && |b| == |g| && a != [] && NeedsSession(a[|a| - 1])
    requires !NaiveProgram(a, s, f).oks[|a| - 1]
    ensures var r := NaiveProgram(a, s, f);
            var q := NaiveProgram(b, Settings(r.settings.config, None), g);
            && NaiveProgram(a + b, s, f + g).events == r.events + q.events
            && NaiveProgram(a + b, s, f + g).oks == r.oks + q.oks
            && forall m: PoolMode :: PeakSinceFailure(a + b, s, f + g, m) ==
                                     PeakSinceFailure(b, Settings(r.settings.config, None), g, m)
  {
    var n := |a| - 1;
    var before := NaiveProgram(a[..n], s, f[..n]);
    FailureForgets(a[n], before.settings, f[n]);
    assert NaiveProgram(a, s, f).settings == Settings(NaiveProgram(a, s, f).settings.config, None);
    ProgramsJoin(a, b, s, f, g);
    forall m: PoolMode
      ensures PeakSinceFailure(a + b, s, f + g, m) == PeakSinceFailure(b, NaiveProgram(a, s, f).settings, g, m)
    {
      PeakAfterFailure(a, b, s, f, g, m);
    }
  }

  /** The template itself after a failed call: it is pristine, a default destination object that
      the client had supplied is forgotten, and further calls run as on a new template with the
      properties it then has. */
  method RunAfterFailure(t: CmsTemplate, a: seq<Command>, b: seq<Command>)
    returns (oksA: seq<bool>, oksB: seq<bool>, ghost t1: Template, ghost w1: World, ghost f: seq<nat>, ghost g: seq<nat>)
    requires t.Valid() && Inv(t.State(), t.rt.w) && Pristine(t.State(), t.rt.w)
    modifies t.Repr
    ensures t.Valid() && Inv(t.State(), t.rt.w) && |oksA| == |a| == |f|
    ensures ProgramDone(old(t.State()), old(t.rt.w), t1, w1, a, oksA, f)
    ensures LastFailed(a, oksA) ==>
              && Pristine(t1, w1) && View(t1) == Settings(t1.config, None)
              && |g| == |b| && ProgramDone(t1, w1, t.State(), t.rt.w, b, oksB, g)
  {
    oksA, f := RunProgram(t, a);
    t1, w1 := t.State(), t.rt.w;
    oksB, g := [], [];
    if LastFailed(a, oksA) {
      oksB, g := RunProgram(t, b);
    }
  }

  // ---- Where transparency fails ----

  /** A send without a creator of its own, or a receive, to a destination given as an object. */
  predicate Plain(cmd: Command) {
    (cmd.Send? && cmd.target.DestinationTarget? && cmd.creator == []) || (cmd.Receive? && cmd.target.DestinationTarget?)
  }

  function PlainWant(cmd: Command, v: Settings): Want
    requires Plain(cmd)
  {
    WantFor(cmd, cmd.target.d, v)
  }

  function PlainEvent(cmd: Command, v: Settings): Event
    requires Plain(cmd)
  {
    if cmd.Send? then SendEvent(HandedFor(cmd.target.d, v), cmd.payload, v.config)
    else ReceiveEvent(cmd.target.d, cmd.selector, v)
  }

  lemma PlainNaive(cmd: Command, v: Settings, k: nat)
    requires Plain(cmd) && Naive(cmd, None, v, k).ok
    ensures Naive(cmd, None, v, k).events == [PlainEvent(cmd, v)]
    ensures Naive(cmd, None, v, k).wants == {PlainWant(cmd, v)} && Naive(cmd, None, v, k).settings == v
  {
    var a := Acquire(v, k);
    var p := Prepare(cmd, v, a.left);
    assert Naive(cmd, None, v, k) == Guard(Inside(cmd, v, a.left));
    assert p.ok && Wants(cmd, v) == {PlainWant(cmd, v)};
    if cmd.Send? {
      var q := NaiveAll(cmd.creator, None, v, p.left);
      assert q == Outcome(true, false, v, [], p.left, {});
      var e := PlainEvent(cmd, v);
      assert Inside(cmd, v, a.left) == Then(p, Then(q, Emit(e, v, q.left)));
      assert [] + ([] + [e]) == [e] && p.wants + ({} + {}) == p.wants;
    } else {
      assert Inside(cmd, v, a.left) == Then(p, Emit(PlainEvent(cmd, v), v, p.left));
    }
  }

  lemma PlainFacts(cmd: Command, v: Settings)
    requires Plain(cmd)
    ensures WantOf(PlainEvent(cmd, v)) == PlainWant(cmd, v) && PlainEvent(cmd, v).mode == v.config.acknowledgeMode
    ensures Demand(cmd, v.config, v.config.acknowledgeMode) == 1
  {
    assert cmd.Send? ==> DemandAll(cmd.creator, v.config, v.config.acknowledgeMode) == 0;
  }

  /** The want that a delivery served is fixed by the wrapper it went through. */
  lemma SameWrapperSameWant(heap: seq<Resource>, d: Delivery, e: Delivery)
    requires WentThrough(heap, d) && WentThrough(heap, e) && d.via == e.via
    ensures WantOf(d.event) == WantOf(e.event)
  {
  }

  /** In one session an entry is shared by all that it can serve. */
  lemma OneEntryOneWrapper(w: World, d: Delivery, e: Delivery, s: Id)
    requires Sound(w) && CachesExact(w) && WentThrough(w.heap, d) && WentThrough(w.heap, e)
    requires d.via in w.live && e.via in w.live
    requires w.heap[d.via].CachedProducer? || w.heap[d.via].CachedConsumer?
    requires w.heap[e.via].CachedProducer? || w.heap[e.via].CachedConsumer?
    requires w.heap[d.via].owner == s && w.heap[e.via].owner == s
    requires ShareEntry(WantOf(d.event), WantOf(e.event))
    ensures d.via == e.via
  {
    assert Owned(w, d.via) && Owned(w, e.via);
    if d.event.Sent? {
      assert ProducerEntry(w, s, w.heap[d.via].key) && ProducerEntry(w, s, w.heap[e.via].key);
    } else {
      assert ConsumerEntry(w, s, w.heap[d.via].key) && ConsumerEntry(w, s, w.heap[e.via].key);
    }
  }

  /** And in a pool of one session there is no other. */
  lemma OneSessionOneWrapper(t: Template, w: World, d: Delivery, e: Delivery)
    requires Inv(t, w) && WentThrough(w.heap, d) && WentThrough(w.heap, e) && d.via in w.live && e.via in w.live
    requires d.event.mode == e.event.mode && Created(t, d.event.mode) == 1
    requires ShareEntry(WantOf(d.event), WantOf(e.event))
    ensures d.via == e.via
  {
    hide WentThrough, Sound, CachesExact, ShareEntry;
    var s := OwnerInPool(t, w, d);
    var s' := OwnerInPool(t, w, e);
    OneEntryOneWrapper(w, d, e, s);
  }

  lemma OwnerInPool(t: Template, w: World, d: Delivery) returns (s: Id)
    requires Inv(t, w) && WentThrough(w.heap, d) && d.via in w.live
    ensures Sound(w) && CachesExact(w) && |t.pools| == NUM_SESSION_POOLS
    ensures w.heap[d.via].CachedProducer? || w.heap[d.via].CachedConsumer?
    ensures s == w.heap[d.via].owner && LivePooled(w, s) && s in w.caches
    ensures t.pools[d.event.mode].Some? && s in t.pools[d.event.mode].value.pool.sessions
  {
    s := w.heap[d.via].owner;
    assert Typed(w.heap, d.via) && s in Parents(w.heap[d.via]);
    assert Typed(w.heap, s);
    assert s in w.caches <==> LivePooled(w, s);
    var m := d.event.mode as nat;
    assert t.pools[m].Some?;
    assert PoolOwns(t.pools[m].value, m, w);
  }

  /** Under any settings of a template that has not been used yet, two transfers, one after the
      other, are both what was wanted if and only if they do not share a cache entry or are the
      same want; otherwise the second goes where the first went. */
  method TransferTwice(t: CmsTemplate, first: Command, second: Command) returns (ok1: bool, ok2: bool)
    requires t.Valid() && Inv(t.State(), t.rt.w) && t.rt.w == EMPTY_WORLD
    requires Plain(first) && Plain(second)
    modifies t.Repr
    ensures ok1 && ok2 ==>
              var v := View(old(t.State()));
              var events := Seen(t.rt.w.events);
              && |events| == 2 && events[0] == PlainEvent(first, v)
              && (events[1] == PlainEvent(second, v) <==>
                  (ShareEntry(PlainWant(first, v), PlainWant(second, v)) ==> PlainWant(first, v) == PlainWant(second, v)))
              && WantOf(events[1]) == (if ShareEntry(PlainWant(first, v), PlainWant(second, v)) then PlainWant(first, v)
                                       else PlainWant(second, v))
  {
    ghost var t0, w0 := t.State(), t.rt.w;
    ghost var k1, k2 := 0, 0;
    ok2 := false;
    ok1, k1 := t.Call(first, None, None);
    ghost var t1, w1 := t.State(), t.rt.w;
    if ok1 {
      ok2, k2 := t.Call(second, None, None);
      if ok2 {
        FirstTransfer(t0, t1, w1, first, k1);
        SecondTransfer(t1, w1, t.State(), t.rt.w, first, second, k2);
      }
    }
  }

  /** The failing run: a send to the temporary queue of a name and then one to the plain queue of
      that name show the broker the temporary queue twice. */
  method TemporaryQueueTakesOver(t: CmsTemplate, name: string, first: int, second: int) returns (ok1: bool, ok2: bool)
    requires t.Valid() && Inv(t.State(), t.rt.w) && t.rt.w == EMPTY_WORLD
    modifies t.Repr
    ensures ok1 && ok2 ==>
              var events := Seen(t.rt.w.events);
              && |events| == 2 && events[0].Sent? && events[1].Sent?
              && events[0].dest == events[1].dest == Destination(TemporaryQueue, name) != Destination(Queue, name)
  {
    var temporary, plain := Destination(TemporaryQueue, name), Destination(Queue, name);
    ProducerKeyExact(temporary, plain);
    ok1, ok2 := TransferTwice(t, Send(DestinationTarget(temporary), [], first), Send(DestinationTarget(plain), [], second));
  }

  /** In an empty world a template has no pools, whatever its properties are. */
  lemma UnusedHasNoPools(t: Template)
    requires Inv(t, EMPTY_WORLD)
    ensures t.pools == NO_POOLS
  {
    if t.connection.Some? {
      PoolConnectionLive(t, EMPTY_WORLD, 0);
    } else {
      NothingWithoutConnection(t, EMPTY_WORLD);
    }
  }

  lemma FirstTransfer(t0: Template, t1: Template, w1: World, first: Command, k: nat)
    requires Plain(first) && Inv(t0, EMPTY_WORLD) && Inv(t1, w1)
    requires CallDone(t0, EMPTY_WORLD, t1, w1, first, None, k, true)
    ensures View(t1) == View(t0) && |w1.events| == 1 && w1.events[0].event == PlainEvent(first, View(t0))
    ensures forall a :: a in w1.asked ==> a.want == PlainWant(first, View(t0))
    ensures Grew(EMPTY_WORLD, w1) && NothingLost(EMPTY_WORLD, w1)
    ensures var m := t0.config.acknowledgeMode;
            |t1.pools| == NUM_SESSION_POOLS && Created(t1, m) == 1 && LeaseCount(t1, m) == 0
  {
    hide Inv, Naive, WentThrough, Demand;
    UnusedHasNoPools(t0);
    DestroyableInv(t1, w1);
    var v := View(t0);
    PlainNaive(first, v, k);
    PlainFacts(first, v);
    assert w1.events[|EMPTY_WORLD.events|..] == w1.events;
    DeliveredWasAsked(w1, 0);
    ServedMeansShared(w1.events[0].event, PlainEvent(first, v));
    assert Reached(t0, t1, t0.config.acknowledgeMode, Demand(first, t0.config, t0.config.acknowledgeMode));
  }

  lemma SecondTransfer(t1: Template, w1: World, t2: Template, w2: World, first: Command, second: Command, k: nat)
    requires Plain(first) && Plain(second) && Inv(t1, w1) && Inv(t2, w2)
    requires |w1.events| == 1 && w1.events[0].event == PlainEvent(first, View(t1))
    requires forall a :: a in w1.asked ==> a.want == PlainWant(first, View(t1))
    requires Grew(EMPTY_WORLD, w1) && NothingLost(EMPTY_WORLD, w1)
    requires var m := t1.config.acknowledgeMode; Created(t1, m) == 1 && LeaseCount(t1, m) == 0
    requires CallDone(t1, w1, t2, w2, second, None, k, true)
    ensures |w2.events| == 2 && w2.events[0] == w1.events[0]
    ensures var v := View(t1);
            && (w2.events[1].event == PlainEvent(second, v) <==>
                (ShareEntry(PlainWant(first, v), PlainWant(second, v)) ==> PlainWant(first, v) == PlainWant(second, v)))
            && WantOf(w2.events[1].event) == (if ShareEntry(PlainWant(first, v), PlainWant(second, v)) then PlainWant(first, v)
                                              else PlainWant(second, v))
  {
    hide Inv, Naive, Serves, WentThrough, Demand;
    var v := View(t1);
    PlainNaive(second, v, k);
    PlainFacts(first, v);
    PlainFacts(second, v);
    OneMore(w1, w2, PlainEvent(second, v));
    DestroyableInv(t2, w2);
    var d, e := w2.events[0], w2.events[1];
    DeliveredWasAsked(w2, 1);
    ServedMeansShared(e.event, PlainEvent(second, v));
    if ShareEntry(PlainWant(first, v), PlainWant(second, v)) {
      assert Reached(t1, t2, t1.config.acknowledgeMode, Demand(second, t1.config, t1.config.acknowledgeMode));
      ThroughLiveWrapper(w1, w2, d);
      ThroughLiveWrapper(w1, w2, e);
      OneSessionOneWrapper(t2, w2, d, e);
      SameWrapperSameWant(w2.heap, d, e);
    }
  }

  lemma OneMore(w1: World, w2: World, wanted: Event)
    requires |w1.events| == 1 && w1.events <= w2.events && ServesAll(w2.events[|w1.events|..], [wanted])
    ensures |w2.events| == 2 && w2.events[0] == w1.events[0] && Serves(w2.events[1].event, wanted)
  {
    assert w2.events[1..][0] == w2.events[1];
  }

  /** As long as nothing failed, the wrapper that a delivery went through lives. */
  lemma ThroughLiveWrapper(w1: World, w2: World, d: Delivery)
    requires Sound(w2) && Grew(EMPTY_WORLD, w1) && Grew(w1, w2) && NothingLost(EMPTY_WORLD, w1) && NothingLost(w1, w2)
    requires d in w2.events
    ensures WentThrough(w2.heap, d) && d.via in w2.live
  {
    LossTrans(EMPTY_WORLD, w1, w2);
  }
}
