/** What single calls on a template mean for the broker, said in the client's terms. */
module ClientView {
  import opened Wrappers
  import opened Destinations
  import opened CacheKeys
  import opened Runtime
  import opened PooledSessions
  import opened Commands
  import opened TemplateState
  import opened TemplateRuns
  import opened TemplateSteps
  import opened TemplateCalls
  import opened TemplatePrograms
  import opened CmsTemplates

  /** A topic if publishing to topics is on and a queue otherwise, of that name without options. */
  ghost predicate Denotes(d: Destination, pubSub: bool, name: string) {
    d == Destination(if pubSub then Topic else Queue, PhysicalName(name))
  }

  /** The same but for being temporary, which a cache entry does not tell apart. */
  ghost predicate DenotesAddress(d: Destination, pubSub: bool, name: string) {
    && d.physicalName == PhysicalName(name)
    && (if pubSub then d.kind == Topic || d.kind == TemporaryTopic else d.kind == Queue || d.kind == TemporaryQueue)
  }

  ghost predicate SameAddressAs(d: Destination, e: Destination) {
    && d.physicalName == e.physicalName
    && ((d.kind == Topic || d.kind == TemporaryTopic) <==> (e.kind == Topic || e.kind == TemporaryTopic))
  }

  /** The session's mode, the producer's flags, the quality of service and the payload of a send
      by the template itself. */
  ghost predicate SentAs(e: Event, c: Config, payload: int) {
    && e.Sent? && e.payload == payload && e.mode == c.acknowledgeMode
    && (e.flags.disableMessageId <==> !c.messageIdEnabled)
    && (e.flags.disableTimestamp <==> !c.messageTimestampEnabled)
    && (e.qos.Some? <==> c.explicitQosEnabled)
    && (e.qos.Some? ==>
          && e.qos.value.deliveryMode == c.deliveryMode && e.qos.value.priority == c.priority
          && e.qos.value.timeToLive == c.timeToLive)
  }

  /** -1 polls, 0 waits for ever, anything else waits that long, as an int. */
  ghost predicate WaitsFor(t: Timeout, millis: int) {
    && (t == NoWait <==> millis == -1)
    && (t == IndefiniteWait <==> millis == 0)
    && (millis != -1 && millis != 0 ==>
          && t.Milliseconds? && -0x8000_0000 <= t.n <= 0x7fff_ffff && (millis - t.n) % 0x1_0000_0000 == 0
          && (-0x8000_0000 <= millis <= 0x7fff_ffff ==> t.n == millis))
  }

  ghost predicate ReceivedAs(e: Event, c: Config) {
    e.Received? && e.mode == c.acknowledgeMode && WaitsFor(e.timeout, c.receiveTimeout)
  }

  /** The object that the client supplied for the default destination. */
  ghost function SuppliedDefault(t: CmsTemplate): Option<Destination>
    reads t
  {
    match t.defaultDestination
    case Some(DestinationRef(d, None)) => Some(d)
    case _ => None
  }

  /** Where a target leads, up to the address. */
  ghost predicate LeadsTo(target: Target, d: Destination, supplied: Option<Destination>, pubSub: bool, defaultName: string) {
    match target
    case DestinationTarget(e) => SameAddressAs(d, e)
    case NameTarget(n) => n != "" && DenotesAddress(d, pubSub, n)
    case DefaultTarget =>
      match supplied
      case Some(e) => SameAddressAs(d, e)
      case None => defaultName != "" && DenotesAddress(d, pubSub, defaultName)
  }

  /** And exactly. */
  ghost predicate IsTarget(target: Target, d: Destination, supplied: Option<Destination>, pubSub: bool, defaultName: string) {
    match target
    case DestinationTarget(e) => d == e
    case NameTarget(n) => n != "" && Denotes(d, pubSub, n)
    case DefaultTarget =>
      match supplied
      case Some(e) => d == e
      case None => defaultName != "" && Denotes(d, pubSub, defaultName)
  }

  lemma ResolvedIsTarget(target: Target, v: Settings)
    requires Resolve(target, v).Some?
    ensures IsTarget(target, Resolve(target, v).value, v.client, v.config.pubSubDomain, v.config.defaultDestinationName)
    ensures forall d :: SameAddress(d, Resolve(target, v).value) ==>
              LeadsTo(target, d, v.client, v.config.pubSubDomain, v.config.defaultDestinationName)
  {
  }

  lemma TimeoutWaits(c: Config)
    ensures WaitsFor(TimeoutOf(c), c.receiveTimeout)
  {
    ToInt32Exactly(c.receiveTimeout);
  }

  // ---- Single calls ----

  lemma SendNaive(target: Target, payload: int, v: Settings, k: nat)
    requires Naive(Send(target, [], payload), None, v, k).ok
    ensures Resolve(target, v).Some?
    ensures var d := Resolve(target, v).value;
            var o := Naive(Send(target, [], payload), None, v, k);
            o.events == [SendEvent(HandedFor(d, v), payload, v.config)] && o.wants == {Sending(d)} && o.settings == v
  {
    var cmd := Send(target, [], payload);
    var a := Acquire(v, k);
    var p := Prepare(cmd, v, a.left);
    assert Naive(cmd, None, v, k) == Guard(Inside(cmd, v, a.left));
    var q := NaiveAll([], None, v, p.left);
    assert q == Outcome(true, false, v, [], p.left, {});
    var e := SendEvent(HandedFor(Resolve(target, v).value, v), payload, v.config);
    assert Inside(cmd, v, a.left) == Then(p, Then(q, Emit(e, v, q.left)));
    assert [] + ([] + [e]) == [e] && p.wants + ({} + {}) == p.wants;
  }

  lemma ReceiveNaive(target: Target, selector: string, v: Settings, k: nat)
    requires Naive(Receive(target, selector), None, v, k).ok
    ensures Resolve(target, v).Some?
    ensures var d := Resolve(target, v).value;
            var o := Naive(Receive(target, selector), None, v, k);
            && o.events == [ReceiveEvent(d, selector, v)] && o.settings == v
            && o.wants == {Receiving(d, selector, v.config.noLocal)}
  {
    var cmd := Receive(target, selector);
    var a := Acquire(v, k);
    var p := Prepare(cmd, v, a.left);
    assert Naive(cmd, None, v, k) == Guard(Inside(cmd, v, a.left));
    assert Inside(cmd, v, a.left) == Then(p, Emit(ReceiveEvent(Resolve(target, v).value, selector, v), v, p.left));
  }

  /** A call that shows one event for one want. */
  lemma OneShown(t0: Template, w0: World, t1: Template, w1: World, o: Outcome, wanted: Event)
    requires Matches(t0, w0, t1, w1, o, true) && o.events == [wanted] && o.wants == {WantOf(wanted)}
    ensures |w1.events| == |w0.events| + 1 && w0.events <= w1.events
    ensures Serves(w1.events[|w0.events|].event, wanted)
    ensures w0.asked == {} && Sound(w1) ==> w1.events[|w0.events|].event == wanted
  {
    var n := |w0.events|;
    assert w1.events[n..][0] == w1.events[n];
    if w0.asked == {} && Sound(w1) {
      DeliveredWasAsked(w1, n);
      ServedMeansShared(w1.events[n].event, wanted);
    }
  }

  lemma SendShown(t0: Template, w0: World, t1: Template, w1: World, target: Target, payload: int, k: nat)
    requires CallDone(t0, w0, t1, w1, Send(target, [], payload), None, k, true) && Sound(w1)
    ensures |w1.events| == |w0.events| + 1 && w0.events <= w1.events && t1.config == t0.config
    ensures var e, v := w1.events[|w0.events|].event, View(t0);
            && SentAs(e, t0.config, payload)
            && LeadsTo(target, e.dest, v.client, v.config.pubSubDomain, v.config.defaultDestinationName)
            && (w0.asked == {} ==> IsTarget(target, e.dest, v.client, v.config.pubSubDomain, v.config.defaultDestinationName))
  {
    var v := View(t0);
    SendNaive(target, payload, v, k);
    var d := Resolve(target, v).value;
    ResolvedIsTarget(target, v);
    OneShown(t0, w0, t1, w1, Naive(Send(target, [], payload), None, v, k), SendEvent(HandedFor(d, v), payload, v.config));
  }

  lemma ReceiveShown(t0: Template, w0: World, t1: Template, w1: World, target: Target, selector: string, k: nat)
    requires CallDone(t0, w0, t1, w1, Receive(target, selector), None, k, true) && Sound(w1)
    ensures |w1.events| == |w0.events| + 1 && w0.events <= w1.events && t1.config == t0.config
    ensures var e, v := w1.events[|w0.events|].event, View(t0);
            && ReceivedAs(e, t0.config)
            && (w0.asked == {} ==>
                  && e.selector == selector && e.noLocal == t0.config.noLocal
                  && IsTarget(target, e.dest, v.client, v.config.pubSubDomain, v.config.defaultDestinationName))
  {
    var v := View(t0);
    ReceiveNaive(target, selector, v, k);
    var d := Resolve(target, v).value;
    ResolvedIsTarget(target, v);
    TimeoutWaits(t0.config);
    OneShown(t0, w0, t1, w1, Naive(Receive(target, selector), None, v, k), ReceiveEvent(d, selector, v));
  }

  /** A send without a creator of its own shows the broker one event: the properties, and the
      destination that the target means; on a template that has asked for nothing yet, that very
      destination. */
  method SendTo(t: CmsTemplate, target: Target, payload: int) returns (ok: bool)
    requires t.Valid() && Inv(t.State(), t.rt.w)
    modifies t.Repr
    ensures t.Valid() && Inv(t.State(), t.rt.w)
    ensures ok ==> old(t.rt.w).events <= t.rt.w.events && |t.rt.w.events| == |old(t.rt.w).events| + 1
    ensures ok ==>
              var e, c, supplied := t.rt.w.events[|old(t.rt.w).events|].event, old(t.config), old(SuppliedDefault(t));
              && t.config == c && SentAs(e, c, payload)
              && LeadsTo(target, e.dest, supplied, c.pubSubDomain, c.defaultDestinationName)
              && (old(t.rt.w).asked == {} ==> IsTarget(target, e.dest, supplied, c.pubSubDomain, c.defaultDestinationName))
  {
    hide Inv;
    ghost var t0, w0 := t.State(), t.rt.w;
    ghost var k;
    ok, k := t.Call(Send(target, [], payload), None, None);
    DestroyableInv(t.State(), t.rt.w);
    if ok { SendShown(t0, w0, t.State(), t.rt.w, target, payload, k); }
  }

  /** A receive shows one event: the properties, and on a template that has asked for nothing yet
      the very destination, selector and noLocal flag that were wanted. */
  method ReceiveFrom(t: CmsTemplate, target: Target, selector: string) returns (ok: bool)
    requires t.Valid() && Inv(t.State(), t.rt.w)
    modifies t.Repr
    ensures t.Valid() && Inv(t.State(), t.rt.w)
    ensures ok ==> old(t.rt.w).events <= t.rt.w.events && |t.rt.w.events| == |old(t.rt.w).events| + 1
    ensures ok ==>
              var e, c, supplied := t.rt.w.events[|old(t.rt.w).events|].event, old(t.config), old(SuppliedDefault(t));
              && t.config == c && ReceivedAs(e, c)
              && (old(t.rt.w).asked == {} ==>
                    && e.selector == selector && e.noLocal == c.noLocal
                    && IsTarget(target, e.dest, supplied, c.pubSubDomain, c.defaultDestinationName))
  {
    hide Inv;
    ghost var t0, w0 := t.State(), t.rt.w;
    ghost var k;
    ok, k := t.Call(Receive(target, selector), None, None);
    DestroyableInv(t.State(), t.rt.w);
    if ok { ReceiveShown(t0, w0, t.State(), t.rt.w, target, selector, k); }
  }

  // ---- A new template ----

  /** By default names are queues, ids and timestamps are on, and the provider's quality of
      service applies, in a session that acknowledges by itself. */
  method NewTemplateSends(name: string, payload: int) returns (t: CmsTemplate, ok: bool)
    ensures ok ==>
              Seen(t.rt.w.events) == [Sent(Destination(Queue, PhysicalName(name)), payload, None, Flags(false, false), 0)]
  {
    t := new CmsTemplate(true);
    ok := SendTo(t, NameTarget(name), payload);
  }

  /** With the quality of service of the template enabled and nothing else set, messages are
      persistent, of priority 4 and do not expire. */
  method NewTemplateSendsWithQos(name: string, payload: int) returns (t: CmsTemplate, ok: bool)
    ensures ok ==>
              Seen(t.rt.w.events) ==
              [Sent(Destination(Queue, PhysicalName(name)), payload, Some(Qos(0, 4, 0)), Flags(false, false), 0)]
  {
    t := new CmsTemplate(true);
    hide Inv;
    ok := SetThenSend(t, ExplicitQosEnabled(true), NameTarget(name), payload);
  }

  /** And a receive waits for ever for any message, its own included. */
  method NewTemplateReceives(name: string) returns (t: CmsTemplate, ok: bool)
    ensures ok ==> Seen(t.rt.w.events) == [Received(Destination(Queue, PhysicalName(name)), "", false, IndefiniteWait, 0)]
  {
    t := new CmsTemplate(true);
    ok := ReceiveFrom(t, NameTarget(name), "");
  }

  // ---- The setters ----

  /** Each property is what the last setter for it said, and no other one moves. */
  ghost predicate SetBy(c: Config, d: Config, x: Setting) {
    && d.hasFactory == c.hasFactory
    && d.defaultDestinationName == (if x.DefaultDestinationName? then x.name else c.defaultDestinationName)
    && d.pubSubDomain == (if x.PubSubDomain? then x.on else c.pubSubDomain)
    && d.messageIdEnabled == (if x.MessageIdEnabled? then x.on else c.messageIdEnabled)
    && d.messageTimestampEnabled == (if x.MessageTimestampEnabled? then x.on else c.messageTimestampEnabled)
    && d.noLocal == (if x.NoLocal? then x.on else c.noLocal)
    && d.receiveTimeout == (if x.ReceiveTimeout? then x.millis else c.receiveTimeout)
    && d.explicitQosEnabled == (if x.ExplicitQosEnabled? then x.on else c.explicitQosEnabled)
    && d.deliveryMode == (if x.DeliveryPersistent? then (if x.on then 0 else 1)
                          else if x.DeliveryMode? then x.mode else c.deliveryMode)
    && d.priority == (if x.Priority? then x.level else c.priority)
    && d.timeToLive == (if x.TimeToLive? then x.millis else c.timeToLive)
    && d.acknowledgeMode == (if x.SessionAcknowledgeMode? then x.ack else c.acknowledgeMode)
  }

  /** A supplied default destination stays until another is supplied, or another default name or
      the other domain is set. */
  ghost function SuppliedAfter(supplied: Option<Destination>, c: Config, x: Setting): Option<Destination> {
    if x.DefaultDestination? then x.d
    else if x.DefaultDestinationName? && x.name != c.defaultDestinationName then None
    else if x.PubSubDomain? && x.on != c.pubSubDomain then None
    else supplied
  }

  method Set(t: CmsTemplate, x: Setting)
    requires t.Valid() && Inv(t.State(), t.rt.w)
    modifies t`defaultDestination, t`config
    ensures t.Valid() && Inv(t.State(), t.rt.w)
    ensures SetBy(old(t.config), t.config, x)
    ensures SuppliedDefault(t) == SuppliedAfter(old(SuppliedDefault(t)), old(t.config), x)
  {
    hide Inv;
    SettingInv(t.State(), t.rt.w, x);
    t.Configure(x);
  }

  /** What a setter means for the next send. */
  method SetThenSend(t: CmsTemplate, x: Setting, target: Target, payload: int) returns (ok: bool)
    requires t.Valid() && Inv(t.State(), t.rt.w)
    modifies t.Repr
    ensures t.Valid() && Inv(t.State(), t.rt.w)
    ensures ok ==> old(t.rt.w).events <= t.rt.w.events && |t.rt.w.events| == |old(t.rt.w).events| + 1
    ensures ok ==>
              var e, c := t.rt.w.events[|old(t.rt.w).events|].event, t.config;
              && SetBy(old(t.config), c, x) && SentAs(e, c, payload)
              && LeadsTo(target, e.dest, SuppliedAfter(old(SuppliedDefault(t)), old(t.config), x),
                         c.pubSubDomain, c.defaultDestinationName)
              && (old(t.rt.w).asked == {} ==>
                    IsTarget(target, e.dest, SuppliedAfter(old(SuppliedDefault(t)), old(t.config), x),
                             c.pubSubDomain, c.defaultDestinationName))
  {
    hide Inv;
    Set(t, x);
    ok := SendTo(t, target, payload);
  }

  /** And for the next receive. */
  method SetThenReceive(t: CmsTemplate, x: Setting, target: Target, selector: string) returns (ok: bool)
    requires t.Valid() && Inv(t.State(), t.rt.w)
    modifies t.Repr
    ensures t.Valid() && Inv(t.State(), t.rt.w)
    ensures ok ==> old(t.rt.w).events <= t.rt.w.events && |t.rt.w.events| == |old(t.rt.w).events| + 1
    ensures ok ==>
              var e, c := t.rt.w.events[|old(t.rt.w).events|].event, t.config;
              && SetBy(old(t.config), c, x) && ReceivedAs(e, c)
              && (old(t.rt.w).asked == {} ==>
                    && e.selector == selector && e.noLocal == c.noLocal
                    && IsTarget(target, e.dest, SuppliedAfter(old(SuppliedDefault(t)), old(t.config), x),
                                c.pubSubDomain, c.defaultDestinationName))
  {
    Set(t, x);
    ok := ReceiveFrom(t, target, selector);
  }

  // ---- Callbacks ----

  lemma CreatorNaive(target: Target, x: Setting, payload: int, v: Settings, k: nat)
    requires Naive(Send(target, [Configure(x)], payload), None, v, k).ok
    ensures Resolve(target, v).Some?
    ensures var h := HandedFor(Resolve(target, v).value, v);
            var o := Naive(Send(target, [Configure(x)], payload), None, v, k);
            o.events == [SendEvent(h, payload, Apply(v, x).config)] && o.wants == {Sending(h.dest)}
  {
    var cmd := Send(target, [Configure(x)], payload);
    var a := Acquire(v, k);
    var p := Prepare(cmd, v, a.left);
    assert Naive(cmd, None, v, k) == Guard(Inside(cmd, v, a.left));
    var u := Apply(v, x);
    assert [Configure(x)][1..] == [];
    assert NaiveAll([], None, u, p.left) == Outcome(true, false, u, [], p.left, {});
    var q := NaiveAll([Configure(x)], None, v, p.left);
    var r := Naive(Configure(x), None, v, p.left);
    assert q == Then(r, NaiveAll([], None, u, p.left));
    assert r.events + [] == [] && r.wants + {} == {};
    assert q == Outcome(true, false, u, [], p.left, {});
    var e := SendEvent(HandedFor(Resolve(target, v).value, v), payload, u.config);
    assert Inside(cmd, v, a.left) == Then(p, Then(q, Emit(e, u, q.left)));
    assert [] + ([] + [e]) == [e] && p.wants + ({} + {}) == p.wants;
  }

  /** What such a send shows. */
  ghost predicate SentWithCreator(e: Event, c: Config, d: Config, payload: int) {
    && e.Sent? && e.payload == payload && e.mode == c.acknowledgeMode
    && (e.flags.disableMessageId <==> !c.messageIdEnabled)
    && (e.flags.disableTimestamp <==> !c.messageTimestampEnabled)
    && (e.qos.Some? <==> d.explicitQosEnabled)
    && (e.qos.Some? ==> e.qos.value == Qos(d.deliveryMode, d.priority, d.timeToLive))
  }

  lemma CreatorShown(t0: Template, w0: World, t1: Template, w1: World, target: Target, x: Setting, payload: int, k: nat)
    requires CallDone(t0, w0, t1, w1, Send(target, [Configure(x)], payload), None, k, true)
    ensures |w1.events| == |w0.events| + 1 && SetBy(t0.config, t1.config, x)
    ensures var e, v := w1.events[|w0.events|].event, View(t0);
            && SentWithCreator(e, t0.config, t1.config, payload)
            && LeadsTo(target, e.dest, v.client, v.config.pubSubDomain, v.config.defaultDestinationName)
  {
    var v := View(t0);
    CreatorNaive(target, x, payload, v, k);
    NaiveConfig(Send(target, [Configure(x)], payload), None, v, k);
    assert ConfigAfterAll([Configure(x)][1..], ApplyConfig(v.config, x)) == ApplyConfig(v.config, x);
    assert ConfigAfterAll([Configure(x)], v.config) == ApplyConfig(v.config, x);
    ResolvedIsTarget(target, v);
    OneShown(t0, w0, t1, w1, Naive(Send(target, [Configure(x)], payload), None, v, k),
             SendEvent(HandedFor(Resolve(target, v).value, v), payload, Apply(v, x).config));
  }

  /** A message creator that sets a property: the quality of service is the one set by then, the
      flags, the session and the destination are those from before. */
  method CreatorSets(t: CmsTemplate, target: Target, x: Setting, payload: int) returns (ok: bool)
    requires t.Valid() && Inv(t.State(), t.rt.w)
    modifies t.Repr
    ensures ok ==> |t.rt.w.events| == |old(t.rt.w).events| + 1
    ensures ok ==>
              var e, c, d := t.rt.w.events[|old(t.rt.w).events|].event, old(t.config), t.config;
              && SetBy(c, d, x) && SentWithCreator(e, c, d, payload)
              && LeadsTo(target, e.dest, old(SuppliedDefault(t)), c.pubSubDomain, c.defaultDestinationName)
  {
    ghost var t0, w0 := t.State(), t.rt.w;
    ghost var k;
    ok, k := t.Call(Send(target, [Configure(x)], payload), None, None);
    if ok { CreatorShown(t0, w0, t.State(), t.rt.w, target, x, payload, k); }
  }

  lemma CallbackNaive(target: Target, payload: int, v: Settings, k: nat)
    requires Naive(ExecuteProducer(target, [UseProducer(payload)]), None, v, k).ok
    ensures Resolve(target, v).Some?
    ensures var h := HandedFor(Resolve(target, v).value, v);
            var o := Naive(ExecuteProducer(target, [UseProducer(payload)]), None, v, k);
            o.events == [Sent(h.dest, payload, None, h.flags, h.mode)] && o.wants == {Sending(h.dest)} && o.settings == v
  {
    var cmd := ExecuteProducer(target, [UseProducer(payload)]);
    var a := Acquire(v, k);
    var p := Prepare(cmd, v, a.left);
    assert Naive(cmd, None, v, k) == Guard(Inside(cmd, v, a.left));
    var h := HandedFor(Resolve(target, v).value, v);
    assert [UseProducer(payload)][1..] == [];
    var u := Naive(UseProducer(payload), Some(h), v, p.left);
    var q := NaiveAll([UseProducer(payload)], Some(h), v, p.left);
    assert Inside(cmd, v, a.left) == Then(p, Guard(q));
    assert u.ok;
    assert NaiveAll([], Some(h), v, u.left) == Outcome(true, false, v, [], u.left, {});
    var e := Sent(h.dest, payload, None, h.flags, h.mode);
    assert u.events == [e] && q.events == [e] + [];
    assert [] + [e] == [e] && [e] + [] == [e] && p.wants + ({} + {}) == p.wants;
  }

  /** What a callback sends through the producer it is handed goes to the target, with the flags of
      the properties and the provider's quality of service. */
  method CallbackSends(t: CmsTemplate, target: Target, payload: int) returns (ok: bool)
    requires t.Valid() && Inv(t.State(), t.rt.w)
    modifies t.Repr
    ensures ok ==> |t.rt.w.events| == |old(t.rt.w).events| + 1
    ensures ok ==>
              var e, c := t.rt.w.events[|old(t.rt.w).events|].event, old(t.config);
              && e.Sent? && e.payload == payload && e.qos == None && e.mode == c.acknowledgeMode
              && (e.flags.disableMessageId <==> !c.messageIdEnabled)
              && (e.flags.disableTimestamp <==> !c.messageTimestampEnabled)
              && LeadsTo(target, e.dest, old(SuppliedDefault(t)), c.pubSubDomain, c.defaultDestinationName)
  {
    ghost var t0, w0 := t.State(), t.rt.w;
    ghost var k;
    ok, k := t.Call(ExecuteProducer(target, [UseProducer(payload)]), None, None);
    if ok {
      ghost var v := View(t0);
      CallbackNaive(target, payload, v, k);
      ResolvedIsTarget(target, v);
      ghost var h := HandedFor(Resolve(target, v).value, v);
      OneShown(t0, w0, t.State(), t.rt.w, Naive(ExecuteProducer(target, [UseProducer(payload)]), None, v, k),
               Sent(h.dest, payload, None, h.flags, h.mode));
    }
  }

  // ---- What makes a call fail without the provider ----

  lemma FailedAtOnce(t0: Template, w0: World, t1: Template, w1: World, target: Target, payload: int, k: nat, ok: bool)
    requires CallDone(t0, w0, t1, w1, Send(target, [], payload), None, k, ok)
    requires !t0.config.hasFactory || Resolve(target, View(t0)).None?
    ensures !ok && w1.events == w0.events
  {
    var cmd := Send(target, [], payload);
    var v := View(t0);
    assert Naive(cmd, None, v, k) == if !Acquire(v, k).ok then Acquire(v, k) else Guard(Inside(cmd, v, Acquire(v, k).left));
    assert w1.events[|w0.events|..] == [] ==> w1.events == w0.events;
  }

  /** A call fails at once, and the broker sees nothing, without a factory, for an empty name, and
      for a default destination of which neither an object nor a name was given. */
  method FailsAtOnce(t: CmsTemplate, target: Target, payload: int) returns (ok: bool)
    requires t.Valid() && Inv(t.State(), t.rt.w)
    requires || !t.config.hasFactory || (target.NameTarget? && target.name == "")
             || (target.DefaultTarget? && SuppliedDefault(t).None? && t.config.defaultDestinationName == "")
    modifies t.Repr
    ensures !ok && t.rt.w.events == old(t.rt.w).events && Pristine(t.State(), t.rt.w)
  {
    ghost var t0, w0 := t.State(), t.rt.w;
    ghost var k;
    ok, k := t.Call(Send(target, [], payload), None, None);
    FailedAtOnce(t0, w0, t.State(), t.rt.w, target, payload, k, ok);
  }

  lemma BrokenOff(t0: Template, w0: World, t1: Template, w1: World, first: Command, rest: seq<Command>, k: nat, ok: bool)
    requires CallDone(t0, w0, t1, w1, ExecuteSession([first] + rest), None, k, ok)
    requires first.Throw? || first.UseProducer?
    ensures !ok && w1.events == w0.events
  {
    var body := [first] + rest;
    var cmd := ExecuteSession(body);
    var v := View(t0);
    var a := Acquire(v, k);
    assert Naive(cmd, None, v, k) == if !a.ok then a else Guard(Inside(cmd, v, a.left));
    assert Inside(cmd, v, a.left) == NaiveAll(body, None, v, a.left);
    assert body[0] == first && NaiveAll(body, None, v, a.left) == Naive(first, None, v, a.left);
    assert w1.events[|w0.events|..] == [] ==> w1.events == w0.events;
  }

  /** A callback that throws, or uses a producer it was not handed, makes the call fail; nothing
      that would have come after is done. */
  method CallbackBreaksOff(t: CmsTemplate, first: Command, rest: seq<Command>) returns (ok: bool)
    requires t.Valid() && Inv(t.State(), t.rt.w) && (first.Throw? || first.UseProducer?)
    modifies t.Repr
    ensures !ok && t.rt.w.events == old(t.rt.w).events && Pristine(t.State(), t.rt.w)
  {
    hide Inv;
    ghost var t0, w0 := t.State(), t.rt.w;
    ghost var k;
    ok, k := t.Call(ExecuteSession([first] + rest), None, None);
    BrokenOff(t0, w0, t.State(), t.rt.w, first, rest, k, ok);
  }
}
