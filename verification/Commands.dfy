/** What a client can ask of a template, and what a naive template would do: one that keeps
    no connection, session, producer, consumer or destination from one call to the next. */
module Commands {
  import opened Wrappers
  import opened Strings
  import opened Destinations
  import opened CacheKeys
  import opened Runtime
  import opened DestinationResolvers

  /** The plain properties of a template. */
  datatype Config = Config(
    defaultDestinationName: string,
    pubSubDomain: bool,
    messageIdEnabled: bool,
    messageTimestampEnabled: bool,
    noLocal: bool,
    receiveTimeout: int,
    explicitQosEnabled: bool,
    deliveryMode: int,
    priority: int,
    timeToLive: int,
    acknowledgeMode: PoolMode,
    hasFactory: bool)

  const RECEIVE_TIMEOUT_NO_WAIT := -1
  const RECEIVE_TIMEOUT_INDEFINITE_WAIT := 0
  const PERSISTENT := 0
  const NON_PERSISTENT := 1
  const DEFAULT_PRIORITY := 4
  const DEFAULT_TIME_TO_LIVE := 0
  const AUTO_ACKNOWLEDGE: PoolMode := 0

  function DefaultConfig(hasFactory: bool): Config {
    Config("", false, true, true, false, RECEIVE_TIMEOUT_INDEFINITE_WAIT, false, PERSISTENT,
           DEFAULT_PRIORITY, DEFAULT_TIME_TO_LIVE, AUTO_ACKNOWLEDGE, hasFactory)
  }

  /** The configuration and the default destination object the client supplied, if any. */
  datatype Settings = Settings(config: Config, client: Option<Destination>)

  datatype Setting =
    | DefaultDestination(d: Option<Destination>)
    | DefaultDestinationName(name: string)
    | PubSubDomain(on: bool)
    | MessageIdEnabled(on: bool)
    | MessageTimestampEnabled(on: bool)
    | NoLocal(on: bool)
    | ReceiveTimeout(millis: int)
    | ExplicitQosEnabled(on: bool)
    | DeliveryPersistent(on: bool)
    | DeliveryMode(mode: int)
    | Priority(level: int)
    | TimeToLive(millis: int)
    | SessionAcknowledgeMode(ack: PoolMode)

  function ApplyConfig(c: Config, x: Setting): Config {
    match x
    case DefaultDestination(_) => c
    case DefaultDestinationName(n) => c.(defaultDestinationName := n)
    case PubSubDomain(b) => c.(pubSubDomain := b)
    case MessageIdEnabled(b) => c.(messageIdEnabled := b)
    case MessageTimestampEnabled(b) => c.(messageTimestampEnabled := b)
    case NoLocal(b) => c.(noLocal := b)
    case ReceiveTimeout(t) => c.(receiveTimeout := t)
    case ExplicitQosEnabled(b) => c.(explicitQosEnabled := b)
    case DeliveryPersistent(b) => c.(deliveryMode := if b then PERSISTENT else NON_PERSISTENT)
    case DeliveryMode(m) => c.(deliveryMode := m)
    case Priority(p) => c.(priority := p)
    case TimeToLive(t) => c.(timeToLive := t)
    case SessionAcknowledgeMode(m) => c.(acknowledgeMode := m)
  }

  /** A new default name, or the other domain, takes precedence over a supplied object. */
  predicate DropsDefault(c: Config, x: Setting) {
    || (x.DefaultDestinationName? && x.name != c.defaultDestinationName)
    || (x.PubSubDomain? && x.on != c.pubSubDomain)
  }

  function Apply(s: Settings, x: Setting): Settings {
    Settings(ApplyConfig(s.config, x),
             if x.DefaultDestination? then x.d else if DropsDefault(s.config, x) then None else s.client)
  }

  /** After a failure the supplied default destination object is gone. */
  function Forget(s: Settings): Settings { s.(client := None) }

  datatype Target =
    | DefaultTarget
    | DestinationTarget(d: Destination)
    | NameTarget(name: string)

  /** The destination a target denotes; none makes the call throw. */
  function Resolve(t: Target, s: Settings): Option<Destination> {
    match t
    case DestinationTarget(d) => Some(d)
    case NameTarget(n) => ResolveName(n, s.config)
    case DefaultTarget => if s.client.Some? then s.client else ResolveName(s.config.defaultDestinationName, s.config)
  }

  function ResolveName(n: string, c: Config): Option<Destination> {
    if n == "" then None else Some(Named(KindFor(c.pubSubDomain), n))
  }

  function QosOf(c: Config): Option<Qos> {
    if c.explicitQosEnabled then Some(Qos(c.deliveryMode, c.priority, c.timeToLive)) else None
  }

  function ProducerFlags(c: Config): Flags {
    Flags(!c.messageIdEnabled, !c.messageTimestampEnabled)
  }

  function TimeoutOf(c: Config): Timeout {
    if c.receiveTimeout == RECEIVE_TIMEOUT_NO_WAIT then NoWait
    else if c.receiveTimeout == RECEIVE_TIMEOUT_INDEFINITE_WAIT then IndefiniteWait
    else Milliseconds(ToInt32(c.receiveTimeout))
  }

  /** A call on the template, or a step of a callback that it runs. A callback, and the message
      creator of a send, can configure the template and call it again, use the producer it was
      handed, and throw. */
  datatype Command =
    | Configure(x: Setting)
    | ExecuteSession(body: seq<Command>)
    | ExecuteProducer(target: Target, body: seq<Command>)
    | Send(target: Target, creator: seq<Command>, payload: int)
    | Receive(target: Target, selector: string)
    | UseProducer(payload: int)
    | Throw

  /** The producer a callback was handed: where it sends, with the flags set at creation. */
  datatype Handed = Handed(dest: Destination, flags: Flags, mode: PoolMode)

  /** How a naive run ends. `fuel` counts the steps that succeed before a provider call fails;
      `starved` says that it was such a failure that stopped the run; `wants` is what sessions
      were asked for on the way. */
  datatype Outcome = Outcome(ok: bool, starved: bool, settings: Settings, events: seq<Event>, left: nat, wants: set<Want>)

  /** A step that needs the provider. */
  function ProviderStep(s: Settings, fuel: nat): Outcome {
    if fuel == 0 then Outcome(false, true, Forget(s), [], 0, {}) else Outcome(true, false, s, [], fuel - 1, {})
  }

  /** Connection and session for one call. */
  function Acquire(s: Settings, fuel: nat): Outcome {
    if !s.config.hasFactory then Outcome(false, false, Forget(s), [], fuel, {}) else ProviderStep(s, fuel)
  }

  /** The calls that run in a session of their own. */
  predicate NeedsSession(cmd: Command) {
    cmd.ExecuteSession? || cmd.ExecuteProducer? || cmd.Send? || cmd.Receive?
  }

  /** The calls that need a producer or a consumer. */
  predicate NeedsTarget(cmd: Command) {
    cmd.ExecuteProducer? || cmd.Send? || cmd.Receive?
  }

  function TargetOf(cmd: Command): Target
    requires NeedsTarget(cmd)
  {
    match cmd
    case ExecuteProducer(t, _) => t
    case Send(t, _, _) => t
    case Receive(t, _) => t
  }

  /** What such a call asks its session for, once it knows the destination. */
  function WantFor(cmd: Command, d: Destination, s: Settings): Want
    requires NeedsTarget(cmd)
  {
    if cmd.Receive? then Receiving(d, cmd.selector, s.config.noLocal) else Sending(d)
  }

  /** Nothing, if the target cannot be resolved. */
  function Wants(cmd: Command, s: Settings): set<Want>
    requires NeedsTarget(cmd)
  {
    var d := Resolve(TargetOf(cmd), s);
    if d.Some? then {WantFor(cmd, d.value, s)} else {}
  }

  /** Destination and producer or consumer for one call. */
  function Prepare(cmd: Command, s: Settings, fuel: nat): Outcome
    requires NeedsTarget(cmd)
  {
    if Resolve(TargetOf(cmd), s).None? then Outcome(false, false, Forget(s), [], fuel, {})
    else ProviderStep(s, fuel).(wants := Wants(cmd, s))
  }

  function Emit(e: Event, s: Settings, fuel: nat): Outcome {
    var p := ProviderStep(s, fuel);
    if p.ok then p.(events := [e]) else p
  }

  /** A failing callback makes every frame around it destroy the template. */
  function Guard(o: Outcome): Outcome {
    if o.ok then o else o.(settings := Forget(o.settings))
  }

  /** One part of a run after another. */
  function Then(first: Outcome, rest: Outcome): Outcome {
    rest.(events := first.events + rest.events, wants := first.wants + rest.wants)
  }

  function Naive(cmd: Command, handed: Option<Handed>, s: Settings, fuel: nat): (o: Outcome)
    ensures o.starved ==> !o.ok
    decreases cmd, 1
  {
    match cmd
    case Configure(x) => Outcome(true, false, Apply(s, x), [], fuel, {})
    case Throw => Outcome(false, false, s, [], fuel, {})
    case UseProducer(payload) =>
      if handed.None? then Outcome(false, false, s, [], fuel, {})
      else
        var h := handed.value;
        if fuel == 0 then Outcome(false, true, s, [], 0, {})
        else Outcome(true, false, s, [Sent(h.dest, payload, None, h.flags, h.mode)], fuel - 1, {})
    case _ =>
      var a := Acquire(s, fuel);
      if !a.ok then a else Guard(Inside(cmd, s, a.left))
  }

  function HandedFor(d: Destination, s: Settings): Handed {
    Handed(d, ProducerFlags(s.config), s.config.acknowledgeMode)
  }

  /** A send through the producer `h`; the quality of service is read after the message has
      been created. */
  function SendEvent(h: Handed, payload: int, c: Config): Event {
    Sent(h.dest, payload, QosOf(c), h.flags, h.mode)
  }

  function ReceiveEvent(d: Destination, selector: string, s: Settings): Event {
    Received(d, selector, s.config.noLocal, TimeoutOf(s.config), s.config.acknowledgeMode)
  }

  /** What such a call does once it has its session. */
  function Inside(cmd: Command, s: Settings, fuel: nat): (o: Outcome)
    requires NeedsSession(cmd)
    ensures o.starved ==> !o.ok
    decreases cmd, 0
  {
    match cmd
    case ExecuteSession(body) => NaiveAll(body, None, s, fuel)
    case ExecuteProducer(t, body) =>
      var p := Prepare(cmd, s, fuel);
      if !p.ok then p
      else Then(p, Guard(NaiveAll(body, Some(HandedFor(Resolve(t, s).value, s)), s, p.left)))
    case Send(t, creator, payload) =>
      var p := Prepare(cmd, s, fuel);
      if !p.ok then p
      else
        var q := Guard(NaiveAll(creator, None, s, p.left));
        if !q.ok then Then(p, q)
        else
          var e := SendEvent(HandedFor(Resolve(t, s).value, s), payload, q.settings.config);
          Then(p, Then(q, Emit(e, q.settings, q.left)))
    case Receive(t, selector) =>
      var p := Prepare(cmd, s, fuel);
      if !p.ok then p else Then(p, Emit(ReceiveEvent(Resolve(t, s).value, selector, s), s, p.left))
  }

  function NaiveAll(cmds: seq<Command>, handed: Option<Handed>, s: Settings, fuel: nat): (o: Outcome)
    ensures o.starved ==> !o.ok
    decreases cmds, 0
  {
    if cmds == [] then Outcome(true, false, s, [], fuel, {})
    else
      var r := Naive(cmds[0], handed, s, fuel);
      if !r.ok then r else Then(r, NaiveAll(cmds[1..], handed, r.settings, r.left))
  }

  /** Steps that are not needed are left over and change nothing else. */
  lemma {:induction false} MoreFuel(cmd: Command, handed: Option<Handed>, s: Settings, fuel: nat, extra: nat)
    requires !Naive(cmd, handed, s, fuel).starved
    ensures Naive(cmd, handed, s, fuel + extra) ==
            Naive(cmd, handed, s, fuel).(left := Naive(cmd, handed, s, fuel).left + extra)
    decreases cmd, 1
  {
    if NeedsSession(cmd) && Acquire(s, fuel).ok {
      MoreFuelInside(cmd, s, Acquire(s, fuel).left, extra);
    }
  }

  lemma {:induction false} MoreFuelInside(cmd: Command, s: Settings, fuel: nat, extra: nat)
    requires NeedsSession(cmd) && !Inside(cmd, s, fuel).starved
    ensures Inside(cmd, s, fuel + extra) == Inside(cmd, s, fuel).(left := Inside(cmd, s, fuel).left + extra)
    decreases cmd, 0
  {
    match cmd
    case ExecuteSession(body) => MoreFuelAll(body, None, s, fuel, extra);
    case ExecuteProducer(t, body) =>
      if Prepare(cmd, s, fuel).ok {
        MoreFuelAll(body, Some(HandedFor(Resolve(t, s).value, s)), s, Prepare(cmd, s, fuel).left, extra);
      }
    case Send(_, creator, _) =>
      if Prepare(cmd, s, fuel).ok { MoreFuelAll(creator, None, s, Prepare(cmd, s, fuel).left, extra); }
    case _ =>
  }

  lemma {:induction false} MoreFuelAll(cmds: seq<Command>, handed: Option<Handed>, s: Settings, fuel: nat, extra: nat)
    requires !NaiveAll(cmds, handed, s, fuel).starved
    ensures NaiveAll(cmds, handed, s, fuel + extra) ==
            NaiveAll(cmds, handed, s, fuel).(left := NaiveAll(cmds, handed, s, fuel).left + extra)
    decreases cmds, 0
  {
    if cmds != [] {
      var r := Naive(cmds[0], handed, s, fuel);
      MoreFuel(cmds[0], handed, s, fuel, extra);
      if r.ok { MoreFuelAll(cmds[1..], handed, r.settings, r.left, extra); }
    }
  }

  /** The event that happened does what was asked for, as far as the caches' keys can tell. */
  ghost predicate Serves(actual: Event, wanted: Event) {
    match (actual, wanted)
    case (Sent(d, p, q, f, m), Sent(d', p', q', f', m')) =>
      SameAddress(d, d') && p == p' && q == q' && f == f' && m == m'
    case (Received(d, sel, nl, t, m), Received(d', sel', nl', t', m')) =>
      ConsumerKey(d, sel, nl) == ConsumerKey(d', sel', nl') && t == t' && m == m'
    case _ => false
  }

  ghost predicate ServesAll(actual: seq<Delivery>, wanted: seq<Event>) {
    |actual| == |wanted| && forall i :: 0 <= i < |actual| ==> Serves(actual[i].event, wanted[i])
  }

  /** The same call as far as address, selector and everything else go. */
  ghost predicate Equivalent(actual: Event, wanted: Event) {
    match (actual, wanted)
    case (Sent(d, p, q, f, m), Sent(d', p', q', f', m')) =>
      SameAddress(d, d') && p == p' && q == q' && f == f' && m == m'
    case (Received(d, sel, nl, t, m), Received(d', sel', nl', t', m')) =>
      SameAddress(d, d') && sel == sel' && nl == nl' && t == t' && m == m'
    case _ => false
  }

  ghost predicate Unambiguous(e: Event) {
    e.Received? ==> KeyIsUnambiguous(e.dest, e.selector, e.noLocal)
  }

  /** Serving a request means doing exactly it up to the address, for every possible event that
      serves it, if and only if the request's cache key is unambiguous. */
  lemma ServesExactly(wanted: Event)
    ensures (forall actual: Event :: '?' !in actual.dest.physicalName && Serves(actual, wanted) ==> Equivalent(actual, wanted))
            <==> Unambiguous(wanted)
  {
    if wanted.Received?
       && forall actual: Event :: '?' !in actual.dest.physicalName && Serves(actual, wanted) ==> Equivalent(actual, wanted)
    {
      forall b: Destination, s': string, n': bool
        | '?' !in b.physicalName && ConsumerKey(b, s', n') == ConsumerKey(wanted.dest, wanted.selector, wanted.noLocal)
        ensures SameAddress(wanted.dest, b) && wanted.selector == s' && wanted.noLocal == n'
      {
        var actual := Received(b, s', n', wanted.timeout, wanted.mode);
        assert Serves(actual, wanted);
      }
    }
  }

  // ---- When a session mistakes one want for another ----

  /** Two wants that one cache entry serves. */
  predicate ShareEntry(a: Want, b: Want) {
    match (a, b)
    case (Sending(d), Sending(d')) => UniqueDestName(d) == UniqueDestName(d')
    case (Receiving(d, s, n), Receiving(d', s', n')) => ConsumerKey(d, s, n) == ConsumerKey(d', s', n')
    case _ => false
  }

  /** No two different wants share an entry. */
  ghost predicate ClashFree(wants: set<Want>) {
    forall a, b :: a in wants && b in wants && ShareEntry(a, b) ==> a == b
  }

  lemma ServedMeansShared(actual: Event, wanted: Event)
    requires Serves(actual, wanted)
    ensures ShareEntry(WantOf(actual), WantOf(wanted))
    ensures WantOf(actual) == WantOf(wanted) ==> actual == wanted
  {
    if wanted.Sent? { ProducerKeyExact(actual.dest, wanted.dest); }
  }

  /** No two destinations of one domain and name differ in being temporary. */
  ghost predicate NoTwins(wants: set<Want>) {
    forall a, b :: a in wants && b in wants && SameAddress(a.dest, b.dest) ==> a.dest == b.dest
  }

  /** So wants are kept apart if no plain and temporary destination meet, and no subscription
      holds the separator where it matters. */
  lemma PlainWantsAreClashFree(wants: set<Want>)
    requires NoTwins(wants) && forall a :: a in wants ==> '?' !in a.dest.physicalName
    requires forall a :: a in wants && a.Receiving? ==>
               !Contains(a.dest.physicalName, SEPARATOR) && !Contains(BeforeOption(a.selector), SEPARATOR)
    ensures ClashFree(wants)
  {
    forall a, b | a in wants && b in wants && ShareEntry(a, b) ensures a == b {
      if a.Sending? {
        ProducerKeyExact(a.dest, b.dest);
      } else {
        UnambiguousExactly(a.dest, a.selector, a.noLocal);
      }
    }
  }

  // ---- Naive events are wanted ----

  function HandedWants(handed: Option<Handed>): set<Want> {
    if handed.Some? then {Sending(handed.value.dest)} else {}
  }

  ghost predicate AllWanted(events: seq<Event>, wants: set<Want>) {
    forall i :: 0 <= i < |events| ==> WantOf(events[i]) in wants
  }

  lemma {:induction false} NaiveWanted(cmd: Command, handed: Option<Handed>, s: Settings, fuel: nat)
    ensures AllWanted(Naive(cmd, handed, s, fuel).events, Naive(cmd, handed, s, fuel).wants + HandedWants(handed))
    decreases cmd, 1
  {
    if NeedsSession(cmd) && Acquire(s, fuel).ok {
      InsideWanted(cmd, s, Acquire(s, fuel).left);
    }
  }

  lemma {:induction false} InsideWanted(cmd: Command, s: Settings, fuel: nat)
    requires NeedsSession(cmd)
    ensures AllWanted(Inside(cmd, s, fuel).events, Inside(cmd, s, fuel).wants)
    decreases cmd, 0
  {
    match cmd
    case ExecuteSession(body) => NaiveAllWanted(body, None, s, fuel);
    case ExecuteProducer(t, body) =>
      if Prepare(cmd, s, fuel).ok {
        NaiveAllWanted(body, Some(HandedFor(Resolve(t, s).value, s)), s, Prepare(cmd, s, fuel).left);
      }
    case Send(_, creator, _) =>
      if Prepare(cmd, s, fuel).ok { NaiveAllWanted(creator, None, s, Prepare(cmd, s, fuel).left); }
    case _ =>
  }

  lemma {:induction false} NaiveAllWanted(cmds: seq<Command>, handed: Option<Handed>, s: Settings, fuel: nat)
    ensures AllWanted(NaiveAll(cmds, handed, s, fuel).events, NaiveAll(cmds, handed, s, fuel).wants + HandedWants(handed))
    decreases cmds, 0
  {
    if cmds != [] {
      var r := Naive(cmds[0], handed, s, fuel);
      NaiveWanted(cmds[0], handed, s, fuel);
      if r.ok { NaiveAllWanted(cmds[1..], handed, r.settings, r.left); }
    }
  }
}
