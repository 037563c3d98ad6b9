/** The world the template runs in: the CMS provider's resources, the wrapper objects that
    refer to them, who is still alive, and what the provider has been asked to do. */
module Runtime {
  import opened Wrappers
  import opened Destinations

  /** A pointer: the position in the list of everything ever created. */
  type Id = nat

  /** The acknowledge modes that have a session pool (all but INDIVIDUAL_ACKNOWLEDGE). */
  type PoolMode = m: nat | m < 4

  datatype Resource =
    | Connection
    | Session(connection: Id, mode: PoolMode)
    | ManagedDestination(session: Id, dest: Destination)
    | Producer(session: Id, dest: Destination, via: Option<Id>)
    | Consumer(session: Id, dest: Destination, selector: string, noLocal: bool, via: Option<Id>)
    | PooledSession(raw: Id, mode: PoolMode)
    | CachedProducer(rawProducer: Id, owner: Id, key: string)
    | CachedConsumer(rawConsumer: Id, owner: Id, key: string)
    | ResolverObject(pooled: Id)
    | Message

  datatype Flags = Flags(disableMessageId: bool, disableTimestamp: bool)

  datatype Qos = Qos(deliveryMode: int, priority: int, timeToLive: int)

  datatype Timeout = NoWait | IndefiniteWait | Milliseconds(n: int)

  /** A successful call that the broker can observe. */
  datatype Event =
    | Sent(dest: Destination, payload: int, qos: Option<Qos>, flags: Flags, mode: PoolMode)
    | Received(dest: Destination, selector: string, noLocal: bool, timeout: Timeout, mode: PoolMode)

  /** An event, and the cached producer or consumer it went through. */
  datatype Delivery = Delivery(event: Event, via: Id)

  function Seen(ds: seq<Delivery>): (es: seq<Event>)
    ensures |es| == |ds| && forall i :: 0 <= i < |ds| ==> es[i] == ds[i].event
  {
    seq(|ds|, i requires 0 <= i < |ds| => ds[i].event)
  }

  /** What a session is asked for: to send somewhere, or to receive from a subscription. */
  datatype Want =
    | Sending(dest: Destination)
    | Receiving(dest: Destination, selector: string, noLocal: bool)

  /** A raw session was asked for this. */
  datatype Ask = Ask(session: Id, want: Want)

  function WantOf(e: Event): Want {
    match e
    case Sent(d, _, _, _, _) => Sending(d)
    case Received(d, selector, noLocal, _, _) => Receiving(d, selector, noLocal)
  }

  /** The two maps inside a PooledSession object. */
  datatype Caches = Caches(producers: map<string, Id>, consumers: map<string, Id>)

  /** Everything ever created; who is alive, closed or freed; the maps of the pooled sessions;
      the producers' flags; the messages that the client received; what sessions were asked
      for; what the broker saw; and how many calls have failed. */
  datatype World = World(
    heap: seq<Resource>,
    live: set<Id>,
    closed: set<Id>,
    freed: seq<Id>,
    caches: map<Id, Caches>,
    flags: map<Id, Flags>,
    delivered: set<Id>,
    asked: set<Ask>,
    events: seq<Delivery>,
    faults: nat)

  /** A producer's flags; a provider's new producer stamps ids and timestamps. */
  function FlagsOf(w: World, producer: Id): Flags {
    if producer in w.flags then w.flags[producer] else Flags(false, false)
  }

  const EMPTY_WORLD := World([], {}, {}, [], map[], map[], {}, {}, [], 0)

  function Via(via: Option<Id>): set<Id> {
    if via.Some? then {via.value} else {}
  }

  /** What must outlive a resource. A SessionResolver object keeps a pooled session's address only
      as a key, and is not counted as depending on it. */
  function Parents(r: Resource): set<Id> {
    match r
    case Connection => {}
    case Session(c, _) => {c}
    case ManagedDestination(s, _) => {s}
    case Producer(s, _, via) => {s} + Via(via)
    case Consumer(s, _, _, _, via) => {s} + Via(via)
    case PooledSession(raw, _) => {raw}
    case CachedProducer(p, s, _) => {p, s}
    case CachedConsumer(c, s, _) => {c, s}
    case ResolverObject(_) => {}
    case Message => {}
  }

  /** The kinds that a lifecycle manager owns. */
  predicate Managed(r: Resource) {
    r.Connection? || r.Session? || r.ManagedDestination? || r.Producer? || r.Consumer?
  }

  predicate Wrapper(r: Resource) {
    r.PooledSession? || r.CachedProducer? || r.CachedConsumer?
  }

  /** The resource at `id` refers to earlier resources of the right kinds. */
  ghost predicate Typed(heap: seq<Resource>, id: Id)
    requires id < |heap|
  {
    && (forall p :: p in Parents(heap[id]) ==> p < id)
    && match heap[id]
       case Session(c, _) => heap[c].Connection?
       case ManagedDestination(s, _) => heap[s].Session?
       case Producer(s, _, via) => heap[s].Session? && (via.Some? ==> heap[via.value].ManagedDestination?)
       case Consumer(s, _, _, _, via) => heap[s].Session? && (via.Some? ==> heap[via.value].ManagedDestination?)
       case PooledSession(raw, m) => heap[raw].Session? && heap[raw].mode == m
       case CachedProducer(p, s, _) =>
         heap[p].Producer? && heap[s].PooledSession? && heap[p].session == heap[s].raw
       case CachedConsumer(c, s, _) =>
         heap[c].Consumer? && heap[s].PooledSession? && heap[c].session == heap[s].raw
       case _ => true
  }

  ghost predicate Distinct(s: seq<Id>) {
    forall i, j :: 0 <= i < j < |s| ==> s[i] != s[j]
  }

  /** Whatever was freed, everything that refers to it had been freed before. */
  ghost predicate DependentsFirst(heap: seq<Resource>, freed: seq<Id>) {
    forall i, j :: 0 <= i < j < |freed| && freed[j] < |heap| ==> freed[i] !in Parents(heap[freed[j]])
  }

  /** What a raw producer or consumer is for; anything else is for nothing in particular. */
  function AskFor(r: Resource): set<Ask> {
    match r
    case Producer(s, d, _) => {Ask(s, Sending(d))}
    case Consumer(s, d, selector, noLocal, _) => {Ask(s, Receiving(d, selector, noLocal))}
    case _ => {}
  }

  /** Every raw producer and consumer serves what its own session was asked for. */
  ghost predicate OnlyWhatWasAsked(heap: seq<Resource>, asked: set<Ask>) {
    forall id :: 0 <= id < |heap| ==> AskFor(heap[id]) <= asked
  }

  /** A delivery tells the truth about the wrapper it went through. */
  ghost predicate WentThrough(heap: seq<Resource>, d: Delivery) {
    && d.via < |heap|
    && match d.event
       case Sent(dest, _, _, _, mode) =>
         heap[d.via].CachedProducer?
         && var p := heap[d.via].rawProducer;
         && p < |heap| && heap[p].Producer? && heap[p].dest == dest
         && heap[p].session < |heap| && heap[heap[p].session].Session? && heap[heap[p].session].mode == mode
       case Received(dest, selector, noLocal, _, mode) =>
         heap[d.via].CachedConsumer?
         && var c := heap[d.via].rawConsumer;
         && c < |heap| && heap[c].Consumer? && heap[c].dest == dest
         && heap[c].selector == selector && heap[c].noLocal == noLocal
         && heap[c].session < |heap| && heap[heap[c].session].Session? && heap[heap[c].session].mode == mode
  }

  ghost predicate EventsTrue(heap: seq<Resource>, events: seq<Delivery>) {
    forall i :: 0 <= i < |events| ==> WentThrough(heap, events[i])
  }

  /** Every resource ever created is live or was freed exactly once, no live resource refers to
      a freed one, resources were freed in the order of their dependencies, producers and
      consumers exist only where they were asked for, and the events went through them. */
  ghost predicate Sound(w: World) {
    && (forall id :: id in w.live ==> id < |w.heap|)
    && (forall id :: id in w.freed ==> id < |w.heap|)
    && Distinct(w.freed)
    && (forall id :: 0 <= id < |w.heap| ==> (id in w.live <==> id !in w.freed))
    && (forall id :: 0 <= id < |w.heap| ==> Typed(w.heap, id))
    && (forall id, p :: id in w.live && p in Parents(w.heap[id]) ==> p in w.live)
    && DependentsFirst(w.heap, w.freed)
    && OnlyWhatWasAsked(w.heap, w.asked) && EventsTrue(w.heap, w.events)
  }

  function Alloc(w: World, r: Resource): World {
    w.(heap := w.heap + [r], live := w.live + {|w.heap|})
  }

  ghost predicate MayAlloc(w: World, r: Resource) {
    && Parents(r) <= w.live
    && (forall p :: p in Parents(r) ==> p < |w.heap|)
    && Typed(w.heap + [r], |w.heap|)
    && AskFor(r) <= w.asked
  }

  lemma TypedGrows(heap: seq<Resource>, r: Resource, id: Id)
    requires id < |heap| && Typed(heap, id)
    ensures Typed(heap + [r], id)
  {
    var more := heap + [r];
    assert more[id] == heap[id];
    assert forall p :: 0 <= p < id ==> more[p] == heap[p];
  }

  lemma AllocSound(w: World, r: Resource)
    requires Sound(w) && MayAlloc(w, r)
    ensures Sound(Alloc(w, r))
  {
    forall id | 0 <= id < |w.heap| ensures Typed(w.heap + [r], id) {
      TypedGrows(w.heap, r, id);
    }
    OrderGrows(w, r);
    EventsGrow(w.heap, r, w.events);
  }

  lemma EventsGrow(heap: seq<Resource>, r: Resource, events: seq<Delivery>)
    requires EventsTrue(heap, events)
    ensures EventsTrue(heap + [r], events)
  {
    forall i | 0 <= i < |events| ensures WentThrough(heap + [r], events[i]) {
      assert WentThrough(heap, events[i]);
      assert forall p: Id :: p < |heap| ==> (heap + [r])[p] == heap[p];
    }
  }

  lemma OrderGrows(w: World, r: Resource)
    requires Sound(w)
    ensures DependentsFirst(w.heap + [r], w.freed)
  {
    forall i, j | 0 <= i < j < |w.freed| && w.freed[j] < |w.heap + [r]|
      ensures w.freed[i] !in Parents((w.heap + [r])[w.freed[j]]) {
      assert w.freed[j] in w.freed;
    }
  }

  lemma OrderKept(w: World, id: Id)
    requires Sound(w) && id in w.live
    ensures DependentsFirst(w.heap, w.freed + [id])
  {
    var freed := w.freed + [id];
    forall i, j | 0 <= i < j < |freed| && freed[j] < |w.heap| ensures freed[i] !in Parents(w.heap[freed[j]]) {
      assert freed[i] in w.freed;
      assert j < |w.freed| ==> freed[j] == w.freed[j] && freed[i] == w.freed[i];
    }
  }

  /** Nothing alive depends on `id`, and managed resources go only after every live
      connection has been closed. */
  ghost predicate MayDelete(w: World, id: Id) {
    && id in w.live && id < |w.heap|
    && (forall x :: x in w.live && x < |w.heap| ==> id !in Parents(w.heap[x]))
    && (Managed(w.heap[id]) ==> AllClosed(w))
  }

  ghost predicate AllClosed(w: World) {
    forall c :: c in w.live && c < |w.heap| && w.heap[c].Connection? ==> c in w.closed
  }

  function Free(w: World, id: Id): World {
    w.(live := w.live - {id}, freed := w.freed + [id], caches := w.caches - {id})
  }

  lemma FreeSound(w: World, id: Id)
    requires Sound(w) && MayDelete(w, id)
    ensures Sound(Free(w, id))
  {
    OrderKept(w, id);
  }

  /** The provider and the C++ heap. A call that can throw a CMSException says so by `None`
      or `false`, and counts a fault; which calls fail is left open. */
  class CmsRuntime {
    var w: World

    constructor ()
      ensures w == EMPTY_WORLD && Sound(w)
    {
      w := EMPTY_WORLD;
    }

    /** A provider call that creates a resource or throws. */
    method Create(r: Resource) returns (id: Option<Id>)
      requires Sound(w) && MayAlloc(w, r) && (Managed(r) || r.Message?)
      modifies this
      ensures Sound(w)
      ensures id.None? ==> w == old(w).(faults := old(w).faults + 1)
      ensures id.Some? ==> id.value == |old(w).heap| && w == Alloc(old(w), r)
    {
      if * {
        AllocSound(w, r);
        id := Some(|w.heap|);
        w := Alloc(w, r);
      } else {
        id := None;
        w := w.(faults := w.faults + 1);
      }
    }

    /** operator new for a wrapper object. */
    method New(r: Resource) returns (id: Id)
      requires Sound(w) && MayAlloc(w, r) && !Managed(r) && !r.PooledSession?
      modifies this
      ensures Sound(w) && id == |old(w).heap| && w == Alloc(old(w), r)
    {
      AllocSound(w, r);
      id := |w.heap|;
      w := Alloc(w, r);
    }

    /** operator new for a PooledSession, whose caches start empty. */
    method NewPooledSession(raw: Id, mode: PoolMode) returns (id: Id)
      requires Sound(w) && MayAlloc(w, PooledSession(raw, mode))
      modifies this
      ensures Sound(w) && id == |old(w).heap|
      ensures w == Alloc(old(w), PooledSession(raw, mode)).(caches := old(w).caches[id := Caches(map[], map[])])
    {
      AllocSound(w, PooledSession(raw, mode));
      id := |w.heap|;
      w := Alloc(w, PooledSession(raw, mode)).(caches := w.caches[id := Caches(map[], map[])]);
    }

    method PutCaches(s: Id, c: Caches)
      requires Sound(w) && s in w.live && s in w.caches
      modifies this
      ensures Sound(w) && w == old(w).(caches := old(w).caches[s := c])
    {
      w := w.(caches := w.caches[s := c]);
    }

    /** A provider call that may throw and creates nothing. */
    method Call() returns (ok: bool)
      requires Sound(w)
      modifies this
      ensures Sound(w) && w == if ok then old(w) else old(w).(faults := old(w).faults + 1)
    {
      ok := *;
      if !ok { w := w.(faults := w.faults + 1); }
    }

    /** Connection::close; whether it throws makes no difference to its only caller. */
    method Close(c: Id)
      requires Sound(w) && c in w.live && w.heap[c].Connection?
      modifies this
      ensures Sound(w) && w == old(w).(closed := old(w).closed + {c})
    {
      w := w.(closed := w.closed + {c});
    }

    /** operator delete, for a resource that nothing alive depends on. */
    method Delete(id: Id)
      requires Sound(w) && MayDelete(w, id)
      modifies this
      ensures Sound(w) && w == Free(old(w), id)
    {
      FreeSound(w, id);
      w := Free(w, id);
    }

    /** A session is asked for a producer or consumer. */
    method Request(a: Ask)
      requires Sound(w)
      modifies this
      ensures Sound(w) && w == old(w).(asked := old(w).asked + {a})
    {
      w := w.(asked := w.asked + {a});
    }

    /** MessageProducer::setDisableMessageID, which can throw. */
    method SetDisableMessageID(producer: Id, on: bool) returns (ok: bool)
      requires Sound(w) && producer in w.live && w.heap[producer].Producer?
      modifies this
      ensures Sound(w)
      ensures w == if ok then old(w).(flags := old(w).flags[producer := FlagsOf(old(w), producer).(disableMessageId := on)])
                   else old(w).(faults := old(w).faults + 1)
    {
      ok := *;
      w := if ok then w.(flags := w.flags[producer := FlagsOf(w, producer).(disableMessageId := on)])
           else w.(faults := w.faults + 1);
    }

    /** MessageProducer::setDisableMessageTimeStamp, which can throw. */
    method SetDisableMessageTimeStamp(producer: Id, on: bool) returns (ok: bool)
      requires Sound(w) && producer in w.live && w.heap[producer].Producer?
      modifies this
      ensures Sound(w)
      ensures w == if ok then old(w).(flags := old(w).flags[producer := FlagsOf(old(w), producer).(disableTimestamp := on)])
                   else old(w).(faults := old(w).faults + 1)
    {
      ok := *;
      w := if ok then w.(flags := w.flags[producer := FlagsOf(w, producer).(disableTimestamp := on)])
           else w.(faults := w.faults + 1);
    }

    /** CachedProducer::send: the wrapper hands the message to its raw producer. */
    method Send(wrapper: Id, payload: int, qos: Option<Qos>) returns (ok: bool)
      requires Sound(w) && wrapper in w.live && w.heap[wrapper].CachedProducer?
      modifies this
      ensures Sound(w)
      ensures !ok ==> w == old(w).(faults := old(w).faults + 1)
      ensures ok ==> w == old(w).(events := old(w).events + [SentThrough(old(w), wrapper, payload, qos)])
    {
      ok := *;
      if ok {
        var d := SentThrough(w, wrapper, payload, qos);
        w := w.(events := w.events + [d]);
      } else {
        w := w.(faults := w.faults + 1);
      }
    }

    /** CachedConsumer::receive: a message that arrives is a new resource, and none may have
        arrived in time. */
    method Receive(wrapper: Id, timeout: Timeout) returns (ok: bool, message: Option<Id>)
      requires Sound(w) && wrapper in w.live && w.heap[wrapper].CachedConsumer?
      modifies this
      ensures Sound(w)
      ensures !ok ==> message.None? && w == old(w).(faults := old(w).faults + 1)
      ensures ok ==>
        var after := old(w).(events := old(w).events + [ReceivedThrough(old(w), wrapper, timeout)]);
        if message.None? then w == after else message.value == |old(w).heap| && w == Alloc(after, Message)
    {
      ok, message := *, None;
      if !ok {
        w := w.(faults := w.faults + 1);
        return;
      }
      var d := ReceivedThrough(w, wrapper, timeout);
      w := w.(events := w.events + [d]);
      if * {
        AllocSound(w, Message);
        message := Some(|w.heap|);
        w := Alloc(w, Message);
      }
    }

    /** A message is handed to the client, who owns it from then on. */
    method Deliver(message: Id)
      requires Sound(w)
      modifies this
      ensures Sound(w) && w == old(w).(delivered := old(w).delivered + {message})
    {
      w := w.(delivered := w.delivered + {message});
    }
  }

  /** What the broker sees when a message goes out through a cached producer. */
  function SentThrough(w: World, wrapper: Id, payload: int, qos: Option<Qos>): (d: Delivery)
    requires Sound(w) && wrapper in w.live && w.heap[wrapper].CachedProducer?
    ensures WentThrough(w.heap, d) && d.via == wrapper
  {
    assert Typed(w.heap, wrapper);
    var raw := w.heap[wrapper].rawProducer;
    assert raw in Parents(w.heap[wrapper]);
    assert Typed(w.heap, raw);
    var p := w.heap[raw];
    assert p.session in Parents(p);
    Delivery(Sent(p.dest, payload, qos, FlagsOf(w, raw), w.heap[p.session].mode), wrapper)
  }

  function ReceivedThrough(w: World, wrapper: Id, timeout: Timeout): (d: Delivery)
    requires Sound(w) && wrapper in w.live && w.heap[wrapper].CachedConsumer?
    ensures WentThrough(w.heap, d) && d.via == wrapper
  {
    assert Typed(w.heap, wrapper);
    var raw := w.heap[wrapper].rawConsumer;
    assert raw in Parents(w.heap[wrapper]);
    assert Typed(w.heap, raw);
    var c := w.heap[raw];
    assert c.session in Parents(c);
    Delivery(Received(c.dest, c.selector, c.noLocal, timeout, w.heap[c.session].mode), wrapper)
  }
}
