# Verified model of activemq-cpp: template, bytes message, destination names

Three parts of the client library are modelled in Dafny and proved correct.

**The CmsTemplate resource machine.** `Runtime` is the world the template runs in: every resource
ever created has an id, is live or freed, and refers to the resources it needs; every provider
call may fail. `ResourceLifecycleManager`, `SessionPool`, `DynamicDestinationResolver` and
`CmsTemplate` are classes with the original's fields that change in place. `Commands` says what a
template that keeps nothing between calls would do; `TemplateState` holds the invariant,
`TemplateRuns`, `TemplateSteps` and `TemplateCalls` relate a call to the naive one step by step,
`TemplatePrograms` draws the conclusions for whole lives of a template and says when they are
exact, `ClientView` says in plain terms what single calls and setters mean for the broker, and
`TemplateOwnership` spells out what the invariant means for ownership.

**The bytes message.** `BodyMachine` is the plain body: bytes pending, bytes stored, a mode and a
position. `BytesMessage` is the message with its lazily created streams, compression flag and
length header, proved to refine the plain body, with the exact condition under which a body can
be read back. `BigEndian` and `TypedValues` are the encodings.

**Destination names.** `Destinations`, `CompositeDestinations` and `CacheKeys` cover option
stripping, qualified and temporary names, composite names with their cached child list, and the
keys of the session caches.

## What the proofs found

- The caches are not transparent in general. A temporary queue is a `cms::Queue`, so a temporary
  and a plain destination of one name share a cache entry: a send to the plain queue after one to
  the temporary queue of its name goes to the temporary queue
  (`TemplatePrograms.TemporaryQueueTakesOver`). They are transparent, down to the destination, for
  every series of calls in which no two wants share an entry (`TemplatePrograms.RunProgram`).
- A consumer key is ambiguous exactly when `]s=` occurs in the name, or in the selector before its
  first `?`.
- `compressed` is never reset. A message that was compressed once and is written again over a
  connection without compression stores raw bytes under a length header of 0, and says that its
  body is empty (`BytesMessages.StaleFlag`); after `clearBody` it has an empty body whose length
  cannot be read (`ClearedBody`). With compression on, writing nothing at all to a new message (an
  empty block) makes its empty body unreadable too (`EmptyBlock`). A client gets back what was
  written exactly when the predicted condition holds (`ActiveMQBytesMessage.RunAndReadBack`).
- `writeBytes(value, offset, length)` passes `length` as the size of the array: every non-empty
  slice with an offset above 0 fails the bounds check, and no other does that lies in the array.
- `setBodyBytes` appends to pending bytes; `getBodyBytes` after reading part of the body leaves
  the tail of the returned array unset.
- The child list of a composite can name one destination twice: exactly when an unqualified
  component also stands there with the qualifier of the composite's own type.

## Assumptions

- The acknowledge mode is one of the four that have a pool; `INDIVIDUAL_ACKNOWLEDGE` indexes past
  the pool array (activemq-cpp/src/main/activemq/cmsutil/CmsTemplate.h:280-281).
- A leased session is closed once, by the template; `returnSession` does not check.
- A callback that calls the template lets failures propagate.
- The resolver and the connection factory are not replaced once in use.
- A provider call that fails has had no effect at the broker. A real send can throw after the broker
  took the message; then the broker has seen one more event than the model counts.
- Inflating undoes deflating, and the deflater's output is non-empty once anything was written.
- A slice handed to `writeBytes` and a buffer handed to `readBytes` are as long as the caller says.

## Model

| member | source | states |
|---|---|---|
| TemplatePrograms.RunProgram | activemq-cpp/src/main/activemq/cmsutil/CmsTemplate.cpp:476-556 | For every series of configuration changes, sends, receives and nested executes, with any provider call failing, the events at the broker serve those of a template that caches nothing, and are exactly those when no two wants of the series share a cache entry; each call ends as the naive one does, and each provider failure ends exactly one call; sessions are asked only for what the series wants, the invariant holds, no session stays out, each pool has created exactly the deepest nesting of sessions since the last failure, and after a failed last call the template is pristine |
| TemplatePrograms.Lifetime | activemq-cpp/src/main/activemq/cmsutil/CmsTemplate.cpp:135-144 | From construction to destruction: outcomes and events as on the naive template (exactly, when no two wants share an entry), as many calls ended by the provider as it failed; everything ever created is freed exactly once, except the messages that were received, which all live on with the client |
| TemplatePrograms.OnlyWantedResources | activemq-cpp/src/main/activemq/cmsutil/PooledSession.cpp:109-194 | Over any run every raw producer and consumer has a destination (and selector, noLocal) that its own session was asked for and that the program wants |
| TemplatePrograms.ClashFreeRunsAreExact | activemq-cpp/src/main/activemq/cmsutil/PooledSession.cpp:109-217 | When no two wants of a run share a cache entry, the broker sees exactly the wanted events, destination, selector and noLocal included |
| TemplatePrograms.PlainRunsAreExact | activemq-cpp/src/main/activemq/cmsutil/PooledSession.cpp:109-217 | So it does when no plain and temporary destination of one domain and name meet and no "]s=" stands where it matters |
| TemplatePrograms.TransferTwice | activemq-cpp/src/main/activemq/cmsutil/PooledSession.cpp:109-217 | Two sends, or two receives, in a row on an unused template under any settings are both what was wanted iff they do not share an entry or are the same want; otherwise the second goes where the first went |
| TemplatePrograms.TemporaryQueueTakesOver | activemq-cpp/src/main/activemq/cmsutil/PooledSession.cpp:197-217 | A send to the temporary queue x and then to the plain queue x shows the broker the temporary queue twice |
| Commands.PlainWantsAreClashFree | activemq-cpp/src/main/activemq/cmsutil/PooledSession.cpp:161-166 | A condition on names and selectors under which no two wants share an entry |
| Commands.NaiveWanted | activemq-cpp/src/main/activemq/cmsutil/CmsTemplate.cpp:559-580 | Every naive event is something the call wanted, or goes through the producer it was handed |
| TemplatePrograms.ReliableProvider | activemq-cpp/src/main/activemq/cmsutil/CmsTemplate.cpp:476-501 | If no provider call failed, the naive outcome does not depend on how many calls were allowed to succeed |
| TemplatePrograms.RunAfterFailure | activemq-cpp/src/main/activemq/cmsutil/CmsTemplate.cpp:222-243 | After a failed call, at whatever depth it failed and whatever preceded it, the template is pristine, a client-supplied default destination object is forgotten, and further calls run as on a new template with the properties it then has |
| TemplatePrograms.LikeNewAfterFailure | activemq-cpp/src/main/activemq/cmsutil/CmsTemplate.cpp:222-243 | The naive program has the same property: after a failure outcomes and events are those of new settings, and pools count from nothing |
| TemplateOwnership.EverythingAccountedFor | activemq-cpp/src/main/activemq/cmsutil/ResourceLifecycleManager.cpp:78-184 | Conservation: every resource ever created is live with exactly one owner (a manager list position, a pool, the cache entry under its own key, a memo entry, the client) or occurs exactly once among the freed |
| TemplateOwnership.NoPointerDangles | activemq-cpp/src/main/activemq/cmsutil/CmsTemplate.cpp:172-243 | Between operations every pointer kept in the template, pools, caches, memo and default destination leads to a live object of the right kind |
| TemplateOwnership.MachineShape | activemq-cpp/src/main/activemq/cmsutil/CmsTemplate.cpp:285-307 | The connection is set iff each of the four pools is, pools refer to it, memo keys are live pooled sessions, an uninitialised template has empty lists and memo, an initialised one has given its manager to the resolver |
| TemplateOwnership.DefaultIsCurrent | activemq-cpp/src/main/activemq/cmsutil/CmsTemplate.cpp:259-282 | A default destination that the client did not supply is alive and denotes the current default name in the current domain |
| TemplateOwnership.DependenciesSpelledOut | activemq-cpp/src/main/activemq/cmsutil/PooledSession.cpp:109-194 | On every sound heap, for every kind of live resource, the exact resources it needs are live and of the right kind: a raw session its connection, producers and consumers their session and destination, a wrapper the raw object and its session |
| TemplateOwnership.FreedInOrder | activemq-cpp/src/main/activemq/cmsutil/ResourceLifecycleManager.cpp:78-184 | Of any two resources freed, the later one did not need the earlier one: no session before its wrappers and producers, no connection before its sessions, for every kind with its exact needs spelled out |
| Commands.MoreFuel | activemq-cpp/src/main/activemq/cmsutil/CmsTemplate.cpp:476-501 | The naive template's outcome is stable: steps beyond those needed are left over |
| Commands.ServesExactly | activemq-cpp/src/main/activemq/cmsutil/PooledSession.cpp:161-166 | Whatever possible event serves a request does it up to the address, if and only if the request's cache key is unambiguous |
| TemplateRuns.NaiveConfig | activemq-cpp/src/main/activemq/cmsutil/CmsTemplate.h:328-540 | The configuration after a successful call depends on the call alone |
| TemplateCalls.CallSucceeds | activemq-cpp/src/main/activemq/cmsutil/CmsTemplate.cpp:476-501 | Taking a session, running the callback and returning the session matches the naive call one step later, keeps every outer lease, and raises the pool to the nesting that was needed |
| TemplateCalls.CallFails | activemq-cpp/src/main/activemq/cmsutil/CmsTemplate.cpp:476-501 | If the callback fails and the template is destroyed, the call matches the naive failure |
| TemplateCalls.BodyContinues | activemq-cpp/src/main/activemq/cmsutil/CmsTemplate.cpp:476-501 | Matches compose over the steps of a callback: events are joined, demands are maximised, leases survive |
| TemplateCalls.SendDone | activemq-cpp/src/main/activemq/cmsutil/CmsTemplate.cpp:629-670 | A send inside the session: the creator runs as a callback body, then the one wanted event, with the QoS read after the creator and the flags set before it |
| TemplateCalls.ReceiveDone | activemq-cpp/src/main/activemq/cmsutil/CmsTemplate.cpp:673-701 | A receive inside the session is the one wanted event |
| TemplateCalls.ProducerBodyDone | activemq-cpp/src/main/activemq/cmsutil/CmsTemplate.cpp:559-580 | A producer callback matches the naive one, which prepares its producer and runs the body |
| TemplateCalls.ConfigureDone | activemq-cpp/src/main/activemq/cmsutil/CmsTemplate.h:328-540 | A setter matches the naive one and disturbs no lease |
| CmsTemplates.CmsTemplate.constructor | activemq-cpp/src/main/activemq/cmsutil/CmsTemplate.cpp:94-169 | A new template is pristine, with the default properties |
| CmsTemplates.CmsTemplate.Destroy | activemq-cpp/src/main/activemq/cmsutil/CmsTemplate.cpp:222-243 | From any state in which all that lives is owned: afterwards pristine apart from configuration, no event lost, no message of the client freed, nothing faulted; each delete on the way has no live dependents and managed deletes come after all connections were closed; on a pristine template nothing changes at all |
| CmsTemplates.CmsTemplate.CatchAndDestroy | activemq-cpp/src/main/activemq/cmsutil/CmsTemplate.cpp:39-80 | A catch handler run on any consistent state leaves it pristine; running it again changes nothing |
| CmsTemplates.CmsTemplate.DestroyAccessor | activemq-cpp/src/main/activemq/cmsutil/CmsDestinationAccessor.cpp:53-61 | Deletes session resolvers, then everything under management |
| CmsTemplates.CmsTemplate.DestroySessionPools | activemq-cpp/src/main/activemq/cmsutil/CmsTemplate.cpp:189-202 | Deletes exactly the pooled sessions and their wrappers; idempotent |
| CmsTemplates.CmsTemplate.DestroySessionPool | activemq-cpp/src/main/activemq/cmsutil/CmsTemplate.cpp:196-200 | Deletes one pool and keeps the rest destroyable |
| CmsTemplates.CmsTemplate.Init | activemq-cpp/src/main/activemq/cmsutil/CmsTemplate.cpp:205-219 | Hands the manager to the resolver once; invisible |
| CmsTemplates.CmsTemplate.GetConnection | activemq-cpp/src/main/activemq/cmsutil/CmsTemplate.cpp:285-307 | Keeps or makes the connection; fails only without a factory or on a provider fault, and then pristine |
| CmsTemplates.CmsTemplate.Connect | activemq-cpp/src/main/activemq/cmsutil/CmsTemplate.cpp:290-301 | A new connection is managed, started and gets four empty pools that refer to it |
| CmsTemplates.CmsTemplate.OpenConnection | activemq-cpp/src/main/activemq/cmsutil/CmsTemplate.cpp:292-297 | A connection that does not start is left where destroy finds it |
| CmsTemplates.CmsTemplate.CreateConnection | activemq-cpp/src/main/activemq/cmsutil/CmsAccessor.cpp:61-76 | Creates a connection through the factory and puts it under management; fails without one |
| CmsTemplates.CmsTemplate.CreateSessionPools | activemq-cpp/src/main/activemq/cmsutil/CmsTemplate.cpp:172-186 | Destroys the pools there are, then makes one empty pool for each acknowledge mode, over the current connection |
| CmsTemplates.CmsTemplate.TakeSession | activemq-cpp/src/main/activemq/cmsutil/CmsTemplate.cpp:310-322 | A session of the current mode that nobody held; all other leases as they were |
| CmsTemplates.CmsTemplate.TakeFromPool | activemq-cpp/src/main/activemq/cmsutil/CmsTemplate.cpp:319 | The same once connected, or the untouched state with one more fault |
| CmsTemplates.CmsTemplate.ReturnSession | activemq-cpp/src/main/activemq/cmsutil/CmsTemplate.cpp:325-339 | The session goes to the end of the idle list of the pool it came from, whatever mode is configured now |
| CmsTemplates.CmsTemplate.ResolveDestinationName | activemq-cpp/src/main/activemq/cmsutil/CmsDestinationAccessor.cpp:64-73 | The topic of that name when publishing to topics is on and the queue otherwise; fails only for an empty name or on a provider fault |
| CmsTemplates.CmsTemplate.ResolveDefaultDestination | activemq-cpp/src/main/activemq/cmsutil/CmsTemplate.cpp:259-282 | The client's object, or the destination of the default name, remembered; with neither the call fails and destroys |
| CmsTemplates.CmsTemplate.ResolveDefaultName | activemq-cpp/src/main/activemq/cmsutil/CmsTemplate.cpp:272-276 | Resolving the default name remembers a destination that the invariant vouches for |
| CmsTemplates.CmsTemplate.SetDefaultDestination | activemq-cpp/src/main/activemq/cmsutil/CmsTemplate.h:328-331 | Replaces the default destination and nothing else |
| CmsTemplates.CmsTemplate.SetDefaultDestinationName | activemq-cpp/src/main/activemq/cmsutil/CmsTemplate.h:363-371 | A different name drops the cached default; the same name keeps it |
| CmsTemplates.CmsTemplate.SetPubSubDomain | activemq-cpp/src/main/activemq/cmsutil/CmsTemplate.h:394-401 | A change of domain drops the cached default; setting the same domain keeps it |
| CmsTemplates.CmsTemplate.Configure | activemq-cpp/src/main/activemq/cmsutil/CmsTemplate.h:328-540 | Each setter changes its property and drops the default exactly when it must |
| CmsTemplates.CmsTemplate.GetDestination | activemq-cpp/src/main/activemq/cmsutil/CmsTemplate.h:121-125 | The executor's destination: none for the default, the client's object, or the resolved name; destroys on failure |
| CmsTemplates.CmsTemplate.DestinationOrDefault | activemq-cpp/src/main/activemq/cmsutil/CmsTemplate.cpp:347-351 | The given destination or the default one |
| CmsTemplates.CmsTemplate.CreateProducer | activemq-cpp/src/main/activemq/cmsutil/CmsTemplate.cpp:342-375 | The session caches, for the wanted destination, a producer whose flags are the current properties; other leases untouched |
| CmsTemplates.CmsTemplate.PooledProducer | activemq-cpp/src/main/activemq/cmsutil/CmsTemplate.cpp:357-361 | Finds or creates the cached producer and keeps the invariant |
| CmsTemplates.CmsTemplate.SetProducerFlags | activemq-cpp/src/main/activemq/cmsutil/CmsTemplate.cpp:367-369 | The flags of this producer, and of no producer cached by another session; either setter can throw, and then nothing but the fault is seen |
| CmsTemplates.CmsTemplate.CreateConsumer | activemq-cpp/src/main/activemq/cmsutil/CmsTemplate.cpp:378-410 | The session caches a consumer under the key of destination, selector and noLocal |
| CmsTemplates.CmsTemplate.PooledConsumer | activemq-cpp/src/main/activemq/cmsutil/CmsTemplate.cpp:395-399 | Finds or creates the cached consumer and keeps the invariant |
| CmsTemplates.CmsTemplate.DoSend | activemq-cpp/src/main/activemq/cmsutil/CmsTemplate.cpp:645-668 | Once the creator has run: exactly the wanted event with explicit QoS iff enabled; the message is deleted whether or not the send worked |
| CmsTemplates.CmsTemplate.SendCreated | activemq-cpp/src/main/activemq/cmsutil/CmsTemplate.cpp:645-669 | The send after its creator completes the refinement, on success and on failure |
| CmsTemplates.CmsTemplate.DoReceive | activemq-cpp/src/main/activemq/cmsutil/CmsTemplate.cpp:673-701 | Exactly the wanted receive with the configured timeout; an arriving message becomes the client's |
| CmsTemplates.CmsTemplate.UseProducer | activemq-cpp/src/main/activemq/cmsutil/CachedProducer.h:65-71 | A callback's own send through the wrapper reaches the destination and flags it was handed |
| CmsTemplates.CmsTemplate.ProducerForTarget | activemq-cpp/src/main/activemq/cmsutil/CmsTemplate.cpp:570-571 | getDestination and createProducer together, or the naive failure |
| CmsTemplates.CmsTemplate.ConsumerForTarget | activemq-cpp/src/main/activemq/cmsutil/CmsTemplate.cpp:716-720 | getDestination and createConsumer together, or the naive failure |
| CmsTemplates.CmsTemplate.ProducerExecutor | activemq-cpp/src/main/activemq/cmsutil/CmsTemplate.cpp:559-580 | A client's producer callback inside its session refines the naive one |
| CmsTemplates.CmsTemplate.SendExecutor | activemq-cpp/src/main/activemq/cmsutil/CmsTemplate.h:166-193 | A send inside its session, with a creator that may call the template again, refines the naive one |
| CmsTemplates.CmsTemplate.ReceiveExecutor | activemq-cpp/src/main/activemq/cmsutil/CmsTemplate.cpp:704-737 | A receive inside its session refines the naive one |
| CmsTemplates.CmsTemplate.DoInCms | activemq-cpp/src/main/activemq/cmsutil/CmsTemplate.cpp:493-494 | Any callback inside its session refines the naive one |
| CmsTemplates.CmsTemplate.Execute | activemq-cpp/src/main/activemq/cmsutil/CmsTemplate.cpp:476-501 | A whole call refines the naive one at any nesting depth; after a failure the template is pristine |
| CmsTemplates.CmsTemplate.RunBody | activemq-cpp/src/main/activemq/cmsutil/CmsTemplate.cpp:476-501 | A callback or message creator that configures, calls the template again, sends and throws refines the naive body |
| CmsTemplates.CmsTemplate.Call | activemq-cpp/src/main/activemq/cmsutil/CmsTemplate.cpp:595-626 | Every public operation keeps the invariant and refines the naive template; a failed call leaves it pristine |
| TemplateSteps.SendServes | activemq-cpp/src/main/activemq/cmsutil/PooledSession.cpp:109-146 | What is sent through a cached producer goes to the wanted domain and name, in the session's mode, with the producer's flags |
| TemplateSteps.ReceiveServes | activemq-cpp/src/main/activemq/cmsutil/PooledSession.cpp:149-194 | What is received through a cached consumer has the wanted key |
| TemplateSteps.SendNewMessage | activemq-cpp/src/main/activemq/cmsutil/CmsTemplate.cpp:643-668 | Creates, sends and deletes a message: no message stays behind on any path |
| TemplateSteps.ReceiveForClient | activemq-cpp/src/main/activemq/cmsutil/CmsTemplate.cpp:704-737 | A message that arrives is delivered to the client |
| TemplateRuns.ScopeKept | activemq-cpp/src/main/activemq/cmsutil/CmsTemplate.cpp:559-580 | The session and producer that a callback was handed stay good while the template serves nested calls |
| ResourceLifecycleManagers.ResourceLifecycleManager.Destroy | activemq-cpp/src/main/activemq/cmsutil/ResourceLifecycleManager.cpp:78-184 | Closes every connection, then frees producers, consumers, destinations, sessions and connections in exactly that order, each list front to back, and forgets them |
| ResourceLifecycleManagers.ResourceLifecycleManager.ReleaseAll | activemq-cpp/src/main/activemq/cmsutil/ResourceLifecycleManager.cpp:68-75 | Forgets everything |
| ResourceLifecycleManagers.ResourceLifecycleManager.AddMessageProducer | activemq-cpp/src/main/activemq/cmsutil/ResourceLifecycleManager.cpp:229-240 | Appends to its list and to no other |
| Runtime.FreeSound | activemq-cpp/src/main/activemq/cmsutil/ResourceLifecycleManager.cpp:78-184 | Deleting what nothing alive depends on keeps the heap sound: each id live or freed once, no live reference to freed memory, dependents always freed first |
| Runtime.AllocSound | activemq-cpp/src/main/activemq/cmsutil/ResourceLifecycleManager.cpp:187-254 | Creating a resource on live parents keeps the heap sound |
| PooledSessions.CreateCachedProducer | activemq-cpp/src/main/activemq/cmsutil/PooledSession.cpp:109-146 | The entry under the destination's key if there is one; otherwise a new raw producer, managed, wrapped and cached; nothing if creation fails |
| PooledSessions.CreateCachedConsumer | activemq-cpp/src/main/activemq/cmsutil/PooledSession.cpp:149-194 | The same for consumers under destination, selector and noLocal |
| PooledSessions.DeletePooledSession | activemq-cpp/src/main/activemq/cmsutil/PooledSession.cpp:55-84 | Frees exactly the session object and the wrappers in its two caches |
| SessionPools.RunPartitioned | activemq-cpp/src/main/activemq/cmsutil/SessionPool.cpp:64-110 | Over all interleavings idle and leased sessions partition the pool without duplicates |
| SessionPools.LeasesExclusive | activemq-cpp/src/main/activemq/cmsutil/SessionPool.cpp:64-110 | After any run the next take hands out a session that nobody holds |
| SessionPools.FifoReuse | activemq-cpp/src/main/activemq/cmsutil/SessionPool.cpp:86-108 | The session at position k of the idle list is handed out by exactly the (k+1)-th take from now |
| SessionPools.PoolSizeIsPeakDemand | activemq-cpp/src/main/activemq/cmsutil/SessionPool.cpp:64-110 | From an empty pool, the sessions ever created number the most that were ever out at once |
| SessionPools.CreatedIsPeak | activemq-cpp/src/main/activemq/cmsutil/SessionPool.cpp:64-110 | The same from any state: the larger of the present size and the peak |
| SessionPools.SessionPool.TakeSession | activemq-cpp/src/main/activemq/cmsutil/SessionPool.cpp:64-100 | The head of the idle list, or a new managed and wrapped session; on failure nothing changes |
| SessionPools.SessionPool.ReturnSession | activemq-cpp/src/main/activemq/cmsutil/SessionPool.cpp:103-110 | Appends to the idle list |
| SessionPools.SessionPool.Destroy | activemq-cpp/src/main/activemq/cmsutil/SessionPool.cpp:38-61 | Frees exactly the pool's sessions and their wrappers |
| DestinationResolvers.DynamicDestinationResolver.Init | activemq-cpp/src/main/activemq/cmsutil/DynamicDestinationResolver.h:89-96 | Clears the memo before adopting the manager |
| DestinationResolvers.DynamicDestinationResolver.Destroy | activemq-cpp/src/main/activemq/cmsutil/DynamicDestinationResolver.cpp:90-101 | Frees exactly the session resolvers and empties the memo |
| DestinationResolvers.DynamicDestinationResolver.ResolveDestinationName | activemq-cpp/src/main/activemq/cmsutil/DynamicDestinationResolver.cpp:104-135 | Empty names fail at once; otherwise a topic of that name in the topic domain and a queue in the other, one resolver per session and one destination per session, domain and name |
| DestinationResolvers.DynamicDestinationResolver.GetDestination | activemq-cpp/src/main/activemq/cmsutil/DynamicDestinationResolver.cpp:28-73 | The memoised topic or queue, or a new one that is managed and remembered; a topic exactly in the topic domain |
| CacheKeys.ProducerKeyExact | activemq-cpp/src/main/activemq/cmsutil/PooledSession.cpp:197-217 | Two destinations share a producer key iff queue/topic domain and name agree |
| CacheKeys.AddressIsDestination | activemq-cpp/src/main/activemq/cmsutil/PooledSession.cpp:197-217 | Two destinations of one address differ at most in being temporary |
| CacheKeys.ConsumerKeyInjective | activemq-cpp/src/main/activemq/cmsutil/PooledSession.cpp:161-166 | With no "]s=" in either name the consumer key determines domain, name, selector and noLocal |
| CacheKeys.UnambiguousExactly | activemq-cpp/src/main/activemq/cmsutil/PooledSession.cpp:161-166 | Among the names a destination can have, a key belongs to one subscription only iff "]s=" occurs neither in its name nor in its selector before the first "?" |
| Destinations.PhysicalName | activemq-cpp/src/main/activemq/commands/ActiveMQDestination.cpp:111-121 | The longest prefix without "?", so no physical name contains one |
| Destinations.FindAtZero | activemq-cpp/src/main/activemq/commands/ActiveMQDestination.cpp:225-248 | The search test of the parser is a prefix test |
| Destinations.QualifiedNameWins | activemq-cpp/src/main/activemq/commands/ActiveMQDestination.cpp:219-248 | A qualifier decides the type, under any default and whatever follows it |
| Destinations.QualifiedNameRoundTrip | activemq-cpp/src/main/activemq/commands/ActiveMQDestination.cpp:156-169 | Printing and parsing under any default type, even an invalid one, gives the destination back iff its name has no "?" |
| Destinations.UnqualifiedNameTakesDefault | activemq-cpp/src/main/activemq/commands/ActiveMQDestination.cpp:250-270 | Without a qualifier the default type decides, and only a bad one fails |
| Destinations.TemporaryNameRoundTrip | activemq-cpp/src/main/activemq/commands/ActiveMQDestination.cpp:197-216 | The client id embedded in a temporary name is recovered iff it has no "?", also when it is empty or contains the markers |
| CompositeDestinations.OneChildPerComponent | activemq-cpp/src/main/activemq/commands/ActiveMQDestination.cpp:295-327 | One child per distinct non-empty trimmed component, in ascending component order |
| CompositeDestinations.ChildrenDependOnComponentSet | activemq-cpp/src/main/activemq/commands/ActiveMQDestination.cpp:303-323 | Permuting, repeating or padding parts, or adding empty ones, leaves the child list unchanged |
| CompositeDestinations.PaddingIsTrimmed | activemq-cpp/src/main/activemq/commands/ActiveMQDestination.cpp:60-73 | Spaces and tabs around a part do not matter |
| CompositeDestinations.ChildrenAreSimple | activemq-cpp/src/main/activemq/commands/ActiveMQDestination.cpp:320-323 | No child is composite or carries options |
| CompositeDestinations.CompositePrintParse | activemq-cpp/src/main/activemq/commands/ActiveMQDestination.cpp:156-169 | Joining the printed children of a composite with at least two and parsing that as any type gives the same set of destinations |
| CompositeDestinations.ChildrenCollideExactly | activemq-cpp/src/main/activemq/commands/ActiveMQDestination.cpp:318-323 | Two different components stand for one child iff one is unqualified and the other is it with the composite's own qualifier |
| CompositeDestinations.NoRepeatsExactly | activemq-cpp/src/main/activemq/commands/ActiveMQDestination.cpp:303-323 | A child list repeats no destination iff no unqualified component stands there also with the composite's own qualifier |
| CompositeDestinations.RepeatedName | activemq-cpp/src/main/activemq/commands/ActiveMQDestination.cpp:303-323 | For every type and component there is a name whose child list repeats a destination, as "a,queue://a" for queues |
| CompositeDestinations.TokensOfJoin | activemq-cpp/src/main/activemq/commands/ActiveMQDestination.cpp:306-310 | Splitting a join gives back its non-empty parts, in order |
| CompositeDestinations.ActiveMQDestination.GetCompositeDestinations | activemq-cpp/src/main/activemq/commands/ActiveMQDestination.cpp:295-327 | Whatever was set and read before, the cached list is the recomputed one |
| CompositeDestinations.ActiveMQDestination.CollectComponents | activemq-cpp/src/main/activemq/commands/ActiveMQDestination.cpp:305-316 | The loop over tokens computes the sorted set of components |
| CompositeDestinations.ActiveMQDestination.SetPhysicalName | activemq-cpp/src/main/activemq/commands/ActiveMQDestination.cpp:111-128 | Cuts options and drops the cached list |
| CompositeDestinations.ActiveMQDestination.CopyDataStructure | activemq-cpp/src/main/activemq/commands/ActiveMQDestination.cpp:131-153 | Takes over the name, and the cache stays right |
| CompositeDestinations.ActiveMQDestination.constructor | activemq-cpp/src/main/activemq/commands/ActiveMQDestination.cpp:91-103 | As setting the name |
| BodyMachines.TypedRoundTrip | activemq-cpp/src/main/activemq/commands/ActiveMQBytesMessage.cpp:239-690 | Any sequence of typed values written and reset is read back in order, the length is the sum of the widths, and a further read hits the end |
| BodyMachines.StoringKeepsContents | activemq-cpp/src/main/activemq/commands/ActiveMQBytesMessage.cpp:773-815 | Storing twice is storing once; store, clone, send and reset keep the body |
| BodyMachines.ResetRewinds | activemq-cpp/src/main/activemq/commands/ActiveMQBytesMessage.cpp:225-237 | However a body was read, cloned or sent, reset rewinds to the same bytes |
| BodyMachines.FirstWriteStartsNewBody | activemq-cpp/src/main/activemq/commands/ActiveMQBytesMessage.cpp:852-880 | The first bytes after a store start a new body, later ones extend it |
| BodyMachines.ChunksConcatenate | activemq-cpp/src/main/activemq/commands/ActiveMQBytesMessage.cpp:344-390 | Block reads of any sizes concatenate to the body, or to its front when the sizes do not add up |
| BodyMachines.BodyBytesExactly | activemq-cpp/src/main/activemq/commands/ActiveMQBytesMessage.cpp:172-192 | getBodyBytes yields the body, whatever the new array held, iff nothing was read yet or the body is empty |
| BodyMachines.SetBodyBytesExactly | activemq-cpp/src/main/activemq/commands/ActiveMQBytesMessage.cpp:160-169 | setBodyBytes sets the body iff nothing is pending, and some bytes are given or nothing was stored; otherwise it appends |
| BodyMachines.FrozenWhileReadOnly | activemq-cpp/src/main/activemq/commands/ActiveMQBytesMessage.cpp:206-237 | Over every run the reader stays inside the body, and a body in read mode keeps bytes and mode until it is cleared |
| BigEndian.DecodeEncode | activemq-cpp/src/main/decaf/io/DataOutputStream.cpp:181-274 | Fixed-width big-endian encoding is read back modulo what fits |
| BigEndian.EncodeDecode | activemq-cpp/src/main/decaf/io/DataInputStream.cpp:103-205 | Every byte string is the encoding of the number it decodes to |
| BigEndian.ByteAt | activemq-cpp/src/main/decaf/io/DataOutputStream.cpp:225-274 | Each byte is what the source's mask and shift yield, most significant first |
| BigEndian.SignedRoundTrip | activemq-cpp/src/main/decaf/io/DataInputStream.cpp:103-205 | Two's complement is undone for every value in range |
| TypedValues.ValueRoundTrip | activemq-cpp/src/main/activemq/commands/ActiveMQBytesMessage.cpp:239-690 | Each typed value is read back by its own type, from exactly its width |
| TypedValues.BytesRoundTrip | activemq-cpp/src/main/decaf/io/DataInputStream.cpp:51-205 | Bytes accepted by a typed read are the encoding of its result |
| TypedValues.ShortAsUnsigned | activemq-cpp/src/main/activemq/commands/ActiveMQBytesMessage.cpp:532-592 | A short v read as unsigned gives v modulo 65536 |
| BytesMessages.StoredExactly | activemq-cpp/src/main/activemq/commands/ActiveMQBytesMessage.cpp:773-815 | What is stored can be read back iff the compressed flag agrees with the open writer and the length fits an int |
| BytesMessages.WriteAndReadBack | activemq-cpp/src/main/activemq/commands/ActiveMQBytesMessage.cpp:239-690 | On a real message, with or without compression: length, values in order, end of stream |
| BytesMessages.NewMessageFaithful | activemq-cpp/src/main/activemq/commands/ActiveMQBytesMessage.cpp:852-880 | Values written to a new message are readable after reset iff their total fits and, with compression, either nothing or some byte was written |
| BytesMessages.RewriteExactly | activemq-cpp/src/main/activemq/commands/ActiveMQBytesMessage.cpp:852-880 | A new body is readable iff it fits and the connection compresses or the message was never compressed |
| BytesMessages.StaleFlag | activemq-cpp/src/main/activemq/commands/ActiveMQBytesMessage.cpp:852-880 | Compress, clear, change to a connection without compression, write, reset: the client is told that the body he wrote has length 0 |
| BytesMessages.ClearedBody | activemq-cpp/src/main/activemq/commands/ActiveMQBytesMessage.cpp:206-215 | A compressed message that is cleared and reset cannot tell its length |
| BytesMessages.EmptyBlock | activemq-cpp/src/main/activemq/commands/ActiveMQBytesMessage.cpp:326-341 | Nor can a new message to which an empty block was written under compression |
| BytesMessages.ReadBackExactly | activemq-cpp/src/main/activemq/commands/ActiveMQBytesMessage.cpp:818-849 | Asking for the length and for more bytes than there should be is answered as by the plain body iff the stored bytes can be read back |
| BytesMessages.ActiveMQBytesMessage.ReadBack | activemq-cpp/src/main/activemq/commands/ActiveMQBytesMessage.cpp:172-203 | The same on a message that was rewound |
| BytesMessages.ActiveMQBytesMessage.RunAndReadBack | activemq-cpp/src/main/activemq/commands/ActiveMQBytesMessage.cpp:121-880 | After any operations and a reset the client gets the length and the bytes of the body iff the sequence of operations, by the predicted condition, left it readable |
| BytesMessages.ActiveMQBytesMessage.constructor | activemq-cpp/src/main/activemq/commands/ActiveMQBytesMessage.cpp:77-85 | A new message is empty, writable and readable back |
| BytesMessages.ActiveMQBytesMessage.Run | activemq-cpp/src/main/activemq/commands/ActiveMQBytesMessage.cpp:121-880 | Over every interleaving of operations, getBodyBytes included and misjudged slices rejected, the body moves as the plain body does, readability is exactly predicted, and as long as a readable body is read every answer is the plain body's |
| BytesMessages.ActiveMQBytesMessage.Apply | activemq-cpp/src/main/activemq/commands/ActiveMQBytesMessage.cpp:121-880 | One operation moves body, flag and readability as predicted; a read is answered from what there is to read, and as the plain body when it is readable |
| BytesMessages.ActiveMQBytesMessage.StoreContent | activemq-cpp/src/main/activemq/commands/ActiveMQBytesMessage.cpp:773-815 | Pending bytes become the stored content, with or without header; readability is unchanged; without pending bytes nothing happens |
| BytesMessages.ActiveMQBytesMessage.InitializeWriting | activemq-cpp/src/main/activemq/commands/ActiveMQBytesMessage.cpp:852-880 | Opens the output side in write mode and sets the flag that nothing clears |
| BytesMessages.ActiveMQBytesMessage.Append | activemq-cpp/src/main/activemq/commands/ActiveMQBytesMessage.cpp:262-277 | Adds bytes in write mode, fails in read mode, and predicts readability exactly |
| BytesMessages.ActiveMQBytesMessage.WriteValue | activemq-cpp/src/main/activemq/commands/ActiveMQBytesMessage.cpp:262-690 | The typed writes |
| BytesMessages.ActiveMQBytesMessage.PutBodyBytes | activemq-cpp/src/main/activemq/commands/ActiveMQBytesMessage.cpp:160-169 | setBodyBytes |
| BytesMessages.ActiveMQBytesMessage.WriteRange | activemq-cpp/src/main/activemq/commands/ActiveMQBytesMessage.cpp:393-410 | writeBytes with an offset: in write mode a slice within the array is written as intended iff it is empty or starts at 0; the others are rejected |
| BytesMessages.ActiveMQBytesMessage.Send | activemq-cpp/src/main/activemq/commands/ActiveMQBytesMessage.cpp:218-222 | onSend stores, turns the message read-only where the reader stands, and keeps the body |
| BytesMessages.ActiveMQBytesMessage.Rewind | activemq-cpp/src/main/activemq/commands/ActiveMQBytesMessage.cpp:225-237 | reset stores, forgets both streams, turns read-only, rewinds, and keeps the body |
| BytesMessages.ActiveMQBytesMessage.Clear | activemq-cpp/src/main/activemq/commands/ActiveMQBytesMessage.cpp:206-215 | clearBody leaves an empty body in write mode, whatever the mode was, and forgets both streams; the body is readable iff the message was never compressed |
| BytesMessages.ActiveMQBytesMessage.CopyDataStructure | activemq-cpp/src/main/activemq/commands/ActiveMQBytesMessage.cpp:121-145 | Stores the source and takes over content, flag, mode and connection; streams open in the target stay, and a target without any becomes the source's copy |
| BytesMessages.ActiveMQBytesMessage.CloneDataStructure | activemq-cpp/src/main/activemq/commands/ActiveMQBytesMessage.cpp:104-109 | The same body in the same mode, at position 0 |
| BytesMessages.ActiveMQBytesMessage.MakeClone | activemq-cpp/src/main/activemq/commands/ActiveMQBytesMessage.cpp:112-118 | A writable copy of the body |
| BytesMessages.ActiveMQBytesMessage.InitializeReading | activemq-cpp/src/main/activemq/commands/ActiveMQBytesMessage.cpp:818-849 | Opens length and stream from the stored content; fails in write mode, and when a compressed message has no header; never when the body is readable |
| BytesMessages.ActiveMQBytesMessage.ReadValue | activemq-cpp/src/main/activemq/commands/ActiveMQBytesMessage.cpp:240-259 | The typed reads answer as the plain body, however short the reads are |
| BytesMessages.ActiveMQBytesMessage.ReadAllData | activemq-cpp/src/main/decaf/io/DataInputStream.cpp:572-645 | All bytes wanted, or the end after using up what was left |
| BytesMessages.ActiveMQBytesMessage.ReadInto | activemq-cpp/src/main/activemq/commands/ActiveMQBytesMessage.cpp:344-390 | readBytes: min(requested, remaining) bytes, -1 exactly when some are wanted and none left, the rest of the buffer untouched |
| BytesMessages.ActiveMQBytesMessage.FillFromStream | activemq-cpp/src/main/activemq/commands/ActiveMQBytesMessage.cpp:356-369 | The fill loop gives the same bytes for every choice of positive partial counts |
| BytesMessages.ActiveMQBytesMessage.BodyLength | activemq-cpp/src/main/activemq/commands/ActiveMQBytesMessage.cpp:195-203 | getBodyLength is the opened length, readable or not, and that of the body when it is readable |
| BytesMessages.ActiveMQBytesMessage.BodyBytes | activemq-cpp/src/main/activemq/commands/ActiveMQBytesMessage.cpp:172-192 | getBodyBytes: nothing for an empty body, else the unread bytes at the front of an array as long as the body |
| ClientView.SendTo | activemq-cpp/src/main/activemq/cmsutil/CmsTemplate.cpp:595-670 | A send shows one event: its destination is the topic or queue of the given or default name by the domain set, or the object given or supplied; flags, quality of service, mode and payload are those of the properties; on a template that has asked for nothing yet the destination is exact |
| ClientView.ReceiveFrom | activemq-cpp/src/main/activemq/cmsutil/CmsTemplate.cpp:673-838 | A receive shows one event: -1 polls, 0 waits for ever, any other timeout is passed on as an int; mode, selector, noLocal and destination as set and given |
| ClientView.NewTemplateSends | activemq-cpp/src/main/activemq/cmsutil/CmsTemplate.cpp:147-169 | A new template sends a name to the queue of that name, with id and timestamp, without explicit quality of service, in an auto-acknowledging session |
| ClientView.NewTemplateSendsWithQos | activemq-cpp/src/main/activemq/cmsutil/CmsTemplate.cpp:147-169 | With only the quality of service enabled, a new template sends persistent messages of priority 4 that do not expire, to the queue of that name |
| ClientView.NewTemplateReceives | activemq-cpp/src/main/activemq/cmsutil/CmsTemplate.cpp:147-169 | And receives from it without a time limit, own messages included |
| ClientView.Set | activemq-cpp/src/main/activemq/cmsutil/CmsTemplate.h:328-540 | Each setter sets its property and no other; a supplied default destination goes when another name or domain is set |
| ClientView.SetThenSend | activemq-cpp/src/main/activemq/cmsutil/CmsTemplate.h:328-540 | What each setter means for the event of the next send |
| ClientView.SetThenReceive | activemq-cpp/src/main/activemq/cmsutil/CmsTemplate.h:328-540 | What each setter means for the event of the next receive |
| ClientView.CreatorSets | activemq-cpp/src/main/activemq/cmsutil/CmsTemplate.cpp:629-660 | When the message creator sets a property, the quality of service is the new one, flags, mode and destination the old |
| ClientView.CallbackSends | activemq-cpp/src/main/activemq/cmsutil/CmsTemplate.cpp:559-580 | What a producer callback sends goes to the target with the flags of the properties and the default quality of service |
| ClientView.FailsAtOnce | activemq-cpp/src/main/activemq/cmsutil/CmsTemplate.cpp:246-256 | Without a factory, with an empty name, or with no default at all a send fails, shows nothing and leaves the template pristine |
| ClientView.CallbackBreaksOff | activemq-cpp/src/main/activemq/cmsutil/CmsTemplate.cpp:476-501 | A callback that throws, or uses a producer it was not handed, makes the call fail: the broker sees nothing of what would have come after and the template is pristine |
| Destinations.QualifiersSpelledOut | activemq-cpp/src/main/activemq/commands/ActiveMQDestination.cpp:225-248 | "queue://", "topic://", "temp-queue://" and "temp-topic://" give that type and the rest of the name up to "?", under every default |
| Destinations.PrintedSpelledOut | activemq-cpp/src/main/activemq/commands/ActiveMQDestination.cpp:156-169 | Each type prints with its own one of these |
| Destinations.TypeCodesSpelledOut | activemq-cpp/src/main/activemq/commands/ActiveMQDestination.cpp:250-270 | Codes 0 to 3 are topic, queue, temporary topic, temporary queue; every other code fails |
| Destinations.ClientIdSpelledOut | activemq-cpp/src/main/activemq/commands/ActiveMQDestination.cpp:197-216 | The client id is what stands between the first "{TD{" and the last "}TD}" of a temporary name, and empty otherwise |
| CompositeDestinations.TrimExactly | activemq-cpp/src/main/activemq/commands/ActiveMQDestination.cpp:60-73 | Trimming cuts all spaces and tabs, and nothing else, from both ends |
| Strings.LessAtFirstDifference | activemq-cpp/src/main/activemq/commands/ActiveMQDestination.cpp:305-315 | Components are ordered by their first differing character, a prefix first |
| Wrappers.ToInt32Exactly | activemq-cpp/src/main/activemq/cmsutil/CmsTemplate.cpp:694-697 | The cast of a timeout keeps what fits an int and is congruent modulo 2^32 otherwise |
| TypedValues.OneByteValues | activemq-cpp/src/main/decaf/io/DataOutputStream.cpp:122-178 | true is the byte 1, false the byte 0; octets and chars are their own byte |
| TypedValues.OneByteReads | activemq-cpp/src/main/decaf/io/DataInputStream.cpp:51-100 | A boolean read is true iff the byte is not 0 |
| TypedValues.ManyByteValues | activemq-cpp/src/main/decaf/io/DataOutputStream.cpp:181-300 | Widths of two, four and eight bytes, each byte given by the number, or the number plus 256^width if it is negative |
| TypedValues.KindsSpelledOut | activemq-cpp/src/main/decaf/io/DataInputStream.cpp:51-205 | The width of each typed read, and the read that matches each write |
| BodyMachines.ClearThenWrite | activemq-cpp/src/main/activemq/commands/ActiveMQBytesMessage.cpp:206-215 | From any state: clearing, any writes and a reset all succeed and leave exactly the bytes written |
| BodyMachines.ModesExclude | activemq-cpp/src/main/activemq/commands/ActiveMQMessageTemplate.h:633-651 | No write in read mode and no read in write mode succeeds or changes anything |
| BodyMachines.ModesSpelledOut | activemq-cpp/src/main/activemq/commands/ActiveMQBytesMessage.cpp:206-237 | The mode, pending bytes and position after onSend, reset, clone and clearBody |
| BodyMachines.SentIsReadOnly | activemq-cpp/src/main/activemq/commands/ActiveMQBytesMessage.cpp:218-222 | After onSend every write is refused |
| BodyMachines.BlockSpelledOut | activemq-cpp/src/main/activemq/commands/ActiveMQBytesMessage.cpp:344-390 | A block read gives what is there up to what is wanted, -1 exactly when some is wanted and none is there, and refuses a negative length |
| BodyMachines.BodySpelledOut | activemq-cpp/src/main/activemq/commands/ActiveMQBytesMessage.cpp:172-192 | getBodyBytes answers the length of the body and its unread bytes, and leaves the reader at the end: typed reads then throw and block reads answer -1 |
| BodyMachines.SliceSpelledOut | activemq-cpp/src/main/activemq/commands/ActiveMQBytesMessage.cpp:393-410 | What a slice is meant to write: exactly its bytes when it lies in the array, nothing when it is empty, and a failure otherwise |
| BodyMachines.TypedSpelledOut | activemq-cpp/src/main/decaf/io/DataInputStream.cpp:572-645 | A typed read decodes the next bytes or uses up too few of them |
| BytesMessages.HeaderSpelledOut | activemq-cpp/src/main/activemq/commands/ActiveMQBytesMessage.cpp:792-800 | The length header is four bytes, most significant first |
| BytesMessages.HeaderReadSpelledOut | activemq-cpp/src/main/activemq/commands/ActiveMQBytesMessage.cpp:829-833 | And is read that way |
| BytesMessages.StoreOne | activemq-cpp/src/main/activemq/commands/ActiveMQBytesMessage.cpp:262-277 | One value written without compression leaves its own bytes as content, a boolean 1 or 0 |
| BytesMessages.StoreOneCompressed | activemq-cpp/src/main/activemq/commands/ActiveMQBytesMessage.cpp:790-808 | With compression the content is the four length bytes and the deflated bytes |
| BytesMessages.PutAndReadBoolean | activemq-cpp/src/main/activemq/commands/ActiveMQBytesMessage.cpp:240-246 | Any first byte but 0 reads as true |
| BytesMessages.ClearAndWrite | activemq-cpp/src/main/activemq/commands/ActiveMQBytesMessage.cpp:206-215 | A message in any state that is cleared takes any values and keeps exactly their bytes |

## Left out

- PooledSession objects: their two maps are rows of the runtime's table, indexed by the object's pointer, so aliasing between a C++ object and its row is not modelled.
- Swallowed inner failures: a callback that catches a failed template call and goes on with the session it was handed would use freed objects; callbacks are sequences of steps that stop at the first failure.
- The session a callback is handed: what a client does with it directly (its own consumers, browsers, transactions) is outside the template.
- Client-owned destination objects and delivered messages: their deletion is the client's.
- Session resolver keys: a resolver object keeps the address of its pooled session after destroy has deleted that session, and is deleted next; it is not counted as depending on it.
- Failures inside destroy: exceptions from close and delete are caught by the original and make no difference to what is freed; the runtime's close and delete do not fail.
- Exception kinds and texts: a failed call is told from a successful one, not one exception from another.
- Exceptions other than CMSException in `doSend`, memory exhaustion, NULL callbacks and NULL arguments.
- The message creator's use of the session it is handed; what it does with the template is modelled.
- Concurrent use of one CmsTemplate: its connection setup is not synchronised; only SessionPool is modelled under interleaving.
- Naive program: the receive event records the request, not which message the broker answered with.
- Commands.TimeoutOf: a timeout is passed on as the cast to a 32-bit int, and how long a provider waits is not modelled.
- BytesMessages.ActiveMQBytesMessage.CopyDataStructure: the original's open input stream would go on reading memory that the copy has replaced; the model's stream keeps what it had.
- Deflate and inflate are an abstract lossless pair; what inflating other bytes yields is left open. Strings and UTF (`writeString`, `writeUTF`) are left out.
- Bodies longer than an int can count are modelled by the wrapped length; array sizes beyond that are not.
- Options of destinations beyond cutting them from the name; the advisory flag; hash codes; `equals` and `compareTo`, which look at the name alone.
- Map and object messages, transports, marshalling, acknowledgement and message properties.
