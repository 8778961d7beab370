# Verified model of Arke

Arke is a gRPC proxy in front of an AMQP 0-9-1 broker (RabbitMQ). This project models the parts of it whose
correctness depends on state that several goroutines or several calls share, and proves what they keep over every
run. `dafny verify dfyconfig.toml` checks everything.

How the model is built:

- Protocols with several goroutines are state machines: a function `Step` gives the next state, or nothing when the
  event cannot happen, and `Runs.Exec` runs a list of events. Theorems quantify over all lists of events.
- Objects that the program updates in place are classes (`BrokerDetails`, `Subscription`, `ClientLimitManager`,
  `Registry`, `ConcurrentMap`, `MessageTemplate`). Their methods follow the source's loops and branches and are proved
  equal to the functions the theorems are about.
- The broker is explicit: exchanges, queues, bindings and routing (`Amqp`, after sections 3.1.3.1, 3.1.3.3 and 3.1.3.4
  of AMQP 0-9-1, with RabbitMQ's per-queue TTL and dead-lettering), and the messages in its queues (`Settlement`).
- Every request to the broker has its own outcome, chosen by the event. Nothing is assumed to succeed unless a theorem
  says so. What went wrong so far is recorded in history fields (`hindered`, `doubtful`, `resuming`) so that a theorem
  can say under which failures it holds; `CleanRuns`, `PoolHistory` and `WatcherRuns` state
  results from the events alone. Bind requests are sent without waiting for an answer, on another channel than
  publications (internal/provider/connectors/amqp091/amqp091shim.go:278), so an accepted one may also take effect late.
- Time is in integer nanoseconds; Go's fixed-width integers are written out where they wrap.

| file | part of the program |
|---|---|
| `Settlement`, `SettlementRuns`, `Conservation`, `CleanRuns`, `DeadLetterRuns` | deliveries, the ack dispatch, delayed retry, expiry, rejection: one world with the broker's queues |
| `BrokerDetails` | the same operations as methods on one client's object |
| `Topology`, `Filters`, `RetryTopology`, `DeadLetters`, `Subscriptions`, `Amqp`, `Counters` | declarations, subscriptions, bindings, filters, retry and dead letter topologies, routing, the two counting headers |
| `Streams` | stream sessions, prefetch latch, stored offsets |
| `StreamingPublish` | the rendezvous of the publish stream |
| `BlockingPool`, `PoolHistory`, `BlockingLatch` | the two synchronisation primitives, interleaved at atomic actions |
| `Reconnect`, `WatcherRuns` | connect() and the connection watcher |
| `RateLimiter` | token buckets in a map that evicts idle clients |
| `ClientRegistry`, `HealthRegistry`, `ConcurrentMaps` | who is connected, who is notified |
| `I18n`, `MessageTemplates`, `Text` | the two string transformations |
| `Runs`, `Counting`, `Wrappers` | running a machine, counting goroutines, Option |

Some properties a reader would expect do not hold of the code. For each there is a concrete run or input and, as a
theorem over all runs or inputs, the condition under which the property does hold:

| what goes wrong | shown by | exactly when |
|---|---|---|
| a delayed retry acknowledges the message into nowhere and answers Success | `UnboundRetryLosesAMessage` | `RetryLosesIff` |
| a delayed retry leaves the message twice | `RetryDoublesAMessage`; with nothing refused, after the subscription's channel has closed: `RetryAfterChannelLossDoublesAMessage` | `RetryDoublesIff` |
| a message nacked with a delay is rejected at once; doc/arke_protocol.md:343 says it is requeued after the delay | `RetryRejectsAMessage` | `RetryIsRejectedIff` |
| a rejected message of a dead-lettered source does not reach its dead letter queue; doc/design/provider-connector-interface.md:77 says that it is moved there | `ARejectedMessageIsDropped`; for a queue that was there before it was given a dead letter address: `OlderQueueDropsRejected` | `RejectedReachesDeadLetterQueue`, over runs `RejectionsOverRuns` |
| a 64-bit x-acquired-count above the cap passes it | `TwoToThe31Escapes` | `CapEscapes` |
| a message that only a replaced filter accepts is still delivered | `OldFilterSurvives` | `FilteredDelivery` |
| a publish session misreports | `ConfirmMisreports` | `FaithfulIffNoConfirm` |
| an ack on a stream passes over a message nobody acked or nacked | `AckSkipsABlockedMessage` | `AckPassesNothingIff` |
| a delayed nack on a stream answers Success, and the message is never delivered again once a later ack is stored; doc/arke_protocol.md:343 says it is requeued | `RetrySkipsAMessage` | `AckPassesNothingIff`, `RetriedIsNeverReceivedAgain` |
| a Get stays blocked beside a free slot | `RetiringPutStrandsAGet` | only after a retiring Put: `OnlyARetiringPutStrands`; in which pools: `CanStrandIff` |
| every Get blocks for good although no object exists | `OneNilConstructionBlocks` | whenever all slots are kept: `KeptSlotsBlockForGood` |
| a goroutine sleeps through a cancellation | `CancellationCanBeMissed` | `CancellationMissedIff` |
| a health broadcast sends on a closed channel | `BroadcastCanMeetAClosedChannel` | `SendMeetsClosedIff` |
| culling lets a client exceed its rate | `DrainTwiceTellsApart` | `WindowBoundIff` |

doc/design/client-publish-consume.md:294 also offers an immediate requeue, which a nack without delay never makes
(`SettlesAsAsked`). The model follows the code.

## Model

| member | source | states |
|---|---|---|
| SettlementRuns.SettledAtMostOnce | internal/server/server.go:336-369 | in every run of arrivals, deliveries, ack requests, subscriptions, channel losses, reconnects and expiries, each delivery tag is sent to the broker for settlement at most once, failed attempts included; active uuids are distinct, not empty, and hold distinct tags that were never settled |
| SettlementRuns.UnknownIsInert | internal/provider/connectors/amqp091/amqp091.go:234-237 | a request for an empty or unknown uuid answers failure and changes neither client nor broker |
| SettlementRuns.DispatchHandlesOne | internal/server/server.go:336-369 | whatever is refused and whatever fallback is taken, exactly the requested uuid leaves activeMessages |
| SettlementRuns.DispatchSendsOnce | internal/server/server.go:336-369 | one dispatch sends exactly one settlement, for exactly the requested delivery, and answers Success exactly when the broker honours it or on a path that answers blindly |
| Conservation.SettlesAsAsked | internal/server/server.go:336-369 | in every run an ack sends an ack, a nack without delay a rejection, and a nack with a delay a rejection if the retry cannot get to publishing, an ack if its publication is confirmed by an existing exchange, and a requeue otherwise, in terms of what existed before and which requests are refused |
| Conservation.PlainRequestEndsOne | internal/provider/connectors/amqp091/amqp091.go:200-308 | an ack or an undelayed nack that the broker honours ends exactly that message; one that fails changes no queue |
| SettlementRuns.HandledStaysHandled | internal/provider/connectors/amqp091/amqp091.go:200-472 | a uuid that was handled or dropped is never active again in any continuation of the run |
| SettlementRuns.ReconnectForgets | internal/provider/connectors/amqp091/amqp091.go:1961-1968 | a uuid handed out before a reconnect is never settled afterwards: every later request for it is inert and fails |
| SettlementRuns.DeliveriesAreCapped | internal/provider/connectors/amqp091/amqp091.go:1226-1236 | of the first 2^31 acquisitions of a broker message exactly the first maxAcquiredCount + 1 reach the client |
| SettlementRuns.RequeueIsHonoured | internal/provider/connectors/amqp091/amqp091shim.go:425-443 | in every run, the cap inside Nack(true) does not fire for a message that reached the client: a failed retry requeues |
| SettlementRuns.OverTheCapIsRejected | internal/provider/connectors/amqp091/amqp091shim.go:425-443 | for a message over the cap, Nack(true) is a rejection, and for any other a requeue |
| SettlementRuns.SuccessIsBlindIff | internal/server/server.go:345-363 | the response says Success for an unsettled delivery iff settling failed on the dead letter path or after a retry got as far as publishing |
| SettlementRuns.ExpiryReturnsHome | internal/provider/connectors/amqp091/amqp091.go:336-350 | a message that expires in a retry queue is routed by the default exchange to the queue it came from, and to no other |
| SettlementRuns.RetrySendsOnce | internal/provider/connectors/amqp091/amqp091.go:310-424 | a retry either settles the delivery once and forgets it, or returns an error and leaves the delivery and all messages alone |
| SettlementRuns.StepKeeps | internal/provider/connectors/amqp091/amqp091.go:200-472 | every step keeps the invariant: tags, placement of messages in their home queue or a retry queue keyed by it, shape of retry topologies, caches that tell the truth unless something was refused or late, delivery counts |
| Conservation.NothingIsLost | internal/provider/connectors/amqp091/amqp091.go:310-424 | in every run in which no declaration of a retry was refused or took effect late, every message that arrived is at the broker, or was acknowledged by the client or rejected |
| Conservation.ExactlyOnePlace | internal/provider/connectors/amqp091/amqp091.go:310-424 | if also no retry was left in doubt, each message is in exactly one place: finished, in its home queue, or in a retry queue from which it returns there |
| CleanRuns.CleanRunsConserve | internal/provider/connectors/amqp091/amqp091.go:200-472 | in every run whose requests have their declarations and settlements honoured and their publications confirmed or refused outright, and whose subscriptions keep their channels, reconnects included: as many messages arrived as there were arrivals, each is in exactly one place, and the broker waits for every delivery the client has |
| CleanRuns.ReconnectHeals | internal/provider/connectors/amqp091/amqp091.go:1961-1968 | whatever was refused or late before a reconnect, from then on no message is lost while the declarations of later retries are neither refused nor late |
| CleanRuns.RetriedCopyIsFresh | internal/provider/connectors/amqp091/amqp091.go:402-424 | whatever a retry adds to the broker's queues is the same message with its queue's name as key, the retry count one higher, and no deliveries |
| CleanRuns.PlainDispatchAddsNothing | internal/server/server.go:345-369 | an ack or an undelayed nack adds no message |
| CleanRuns.RetryChannelIsKept | internal/provider/connectors/amqp091/amqp091.go:361-379 | the retry channel is opened by the first delayed retry that can have one and kept until the next reconnect |
| CleanRuns.DeliveryMeetsTheCap | internal/provider/connectors/amqp091/amqp091.go:1226-1240 | a message handed out more often than the cap is rejected when it comes again and never becomes active; any other becomes active as a delivery the broker waits for |
| CleanRuns.RejectionsAreRecorded | internal/provider/connectors/amqp091/amqp091.go:1226-1236 | in every run the record of rejections that the dead letter results speak of has one entry per rejection the broker honoured, for the message it takes away |
| Topology.LateIsOnlyLate | internal/provider/connectors/amqp091/amqp091shim.go:278 | a declaration whose bind requests are late differs from a prompt one only in when they take effect |
| Conservation.RetryLosesIff | internal/provider/connectors/amqp091/amqp091.go:381-414 | a delayed retry loses a message iff the broker still waits for the delivery and has no other trace of the message, the publication is confirmed by an exchange that does not feed the retry queue, and the ack succeeds, in terms of what existed before and which requests are refused or late; the client is then told Success |
| Conservation.RetryDoublesIff | internal/provider/connectors/amqp091/amqp091.go:406-413 | a delayed retry doubles a message iff its copy is stored and a trace of it stays: while the broker waits for the delivery, after an unconfirmed publication or a failing ack; once the broker has taken the delivery back, whenever the message is still accounted for |
| Conservation.RepublishOutcome | internal/provider/connectors/amqp091/amqp091.go:402-415 | exactly which of the original and the new copy exist after the tail of a retry, and that no other message is touched |
| Conservation.RetryIsRejectedIff | internal/provider/connectors/amqp091/amqp091.go:361-397 | a nacked message with a delay is rejected at once iff the broker waits for the delivery and there is no retry channel to be had, or no channel for a bind request that is still to be made |
| Conservation.RetryRejectsAMessage | internal/server/server.go:345-349 | a run in which a message nacked with a delay of five seconds is rejected at once, and the client is told Success |
| Conservation.UnboundRetryLosesAMessage | internal/provider/connectors/amqp091/amqp091.go:1012-1015 | a run from a fresh start in which one refused or late bind request loses the message while the client is told Success |
| Conservation.RetryDoublesAMessage | internal/provider/connectors/amqp091/amqp091.go:406-413 | runs from a fresh start in which an unconfirmed publication, or a failing ack, leaves the message twice |
| Conservation.RetryAfterChannelLossDoublesAMessage | internal/provider/connectors/amqp091/amqp091.go:1068-1070 | a run with nothing refused in which the subscription's channel closes, the broker requeues the message, and a delayed nack of the old uuid stores a second copy and answers Success |
| Conservation.PreparedRouted | internal/provider/connectors/amqp091/amqp091.go:381-397 | when nothing is refused or late, a retry that publishes does so to an exchange that feeds the retry queue |
| RetryTopology.RetryNameInjective | internal/provider/connectors/amqp091/amqp091.go:340 | different addresses or delays never share a retry queue |
| RetryTopology.RetryQueueArgs | internal/provider/connectors/amqp091/amqp091.go:336-350 | the retry source's options are acceptable and give a quorum queue with the delay as TTL that dead-letters to the default exchange |
| RetryTopology.RetryDeclared | internal/provider/connectors/amqp091/amqp091.go:381-397 | what exchange, queue, binding and caches look like after a retry's declarations, for every combination of refused and late requests |
| RetryTopology.RetryDeclaredKeeps | internal/provider/connectors/amqp091/amqp091.go:381-397 | declaring a retry topology keeps all retry topologies well formed, and the caches truthful when nothing is refused or late |
| RetryTopology.OtherNamesUntouched | internal/provider/connectors/amqp091/amqp091.go:671-1024 | declaring a source changes nothing under any other name |
| RetryTopology.RetryRoute | internal/provider/connectors/amqp091/amqp091.go:336-350 | by the topic rule for "#", a retry exchange feeds its own queue and no other, and only if that is bound |
| DeadLetters.RejectedReachesDeadLetterQueue | internal/provider/connectors/amqp091/amqp091.go:555-596 | after a subscription on an accepting broker, which rejected messages reach its dead letter queue, for whatever arguments the queue has: none without a dead letter exchange; with the source's address those whose routing key matches the binding under the dead letter subject or the queue's own name, by the rules of the exchange's type, the default exchange and "amq." names included; with another exchange those that earlier bindings match |
| DeadLetters.TopicDeadLetters | internal/provider/connectors/amqp091/amqp091.go:568-586 | for a queue with the source's arguments and a topic exchange: iff there is a dead letter subject, or the key matches the queue's own name |
| DeadLetters.ARejectedMessageIsDropped | internal/provider/connectors/amqp091/amqp091.go:568-574 | a source with a dead letter address and a key for which a rejected message is dropped |
| DeadLetters.OlderQueueDropsRejected | internal/provider/connectors/amqp091/amqp091.go:797-803 | a subscription whose queue was there without a dead letter address succeeds, and nothing rejected from that queue arrives anywhere |
| DeadLetters.LastSubscriptionDecides | internal/provider/connectors/amqp091/amqp091.go:568-592 | whatever was declared before, messages rejected from any queue that dead-letters to the address must match the binding of the source subscribed last, as with "q" and "q.quorum", which share a dead letter queue |
| DeadLetterRuns.RejectionsOverRuns | internal/provider/connectors/amqp091/amqp091.go:555-596 | over every run after such a subscription, as long as no other subscription or client touches the way to its dead letter queue, each message rejected from its queue by a nack, a failed retry or the cap is stored there iff its key matches |
| DeadLetterRuns.StepBuries | internal/provider/connectors/amqp091/amqp091.go:200-472 | no step of any kind disturbs the way to a dead letter queue or misroutes a rejection, subscriptions elsewhere, retries, late binds and reconnects included |
| DeadLetters.RetriedReachesDeadLetterQueue | internal/provider/connectors/amqp091/amqp091.go:555-596 | from a queue with the source's arguments, a rejected message that came back from a delayed retry reaches the dead letter queue iff the dead letter exchange exists, or for the default exchange iff the dead letter subject is that queue's name |
| DeadLetters.DeadLetterQueueIsAnother | internal/provider/connectors/amqp091/amqp091.go:568 | the dead letter queue is never the source's own queue |
| Counters.RetryCountIsExact | internal/provider/connectors/amqp091/amqp091.go:427-452 | after n retries x-retry-count is the starting count plus n as an int32; it is never silently reset |
| SettlementRuns.RetryCountOverRuns | internal/provider/connectors/amqp091/amqp091.go:427-452 | over every run, the header of a message is the count it arrived with plus the retry publications on its way, as an int32 |
| Counters.CapIsExactBelow | internal/provider/connectors/amqp091/amqp091shim.go:445-460 | below 2^31 the cap compares the exact count, however it is encoded |
| Counters.CapEscapes | internal/provider/connectors/amqp091/amqp091shim.go:445-460 | a 64-bit count above the cap escapes it iff its low 32 bits as a signed number do not exceed the cap |
| Counters.TwoToThe31Escapes | internal/provider/connectors/amqp091/amqp091shim.go:445-460 | the count 2^31 passes the default cap although 2^31 - 1 does not |
| Counters.MaxAcquiredCountHit | internal/provider/connectors/amqp091/amqp091shim.go:445-460 | the type switch computes the comparison the theorems use |
| Counters.UpdateRetryCountHeader | internal/provider/connectors/amqp091/amqp091.go:427-452 | the type switch and the increment compute the header of the next retry |
| BrokerDetails.BrokerDetails.HandleAck | internal/server/server.go:336-369 | the dispatch with its fallbacks, as code over the client's fields, is the dispatch step of the settlement machine |
| BrokerDetails.BrokerDetails.Retry | internal/provider/connectors/amqp091/amqp091.go:310-424 | Retry on the client's fields changes client and broker exactly as the machine's retry does, and returns the same error |
| BrokerDetails.BrokerDetails.Ack | internal/provider/connectors/amqp091/amqp091.go:200-257 | Ack on the client's fields is the machine's ack; the uuid is deleted on success and on error |
| BrokerDetails.BrokerDetails.Nack | internal/provider/connectors/amqp091/amqp091.go:260-308 | Nack on the client's fields is the machine's rejection |
| BrokerDetails.BrokerDetails.DeadLetter | internal/provider/connectors/amqp091/amqp091.go:455-472 | DeadLetter on the client's fields is the machine's rejection with the result dropped |
| BrokerDetails.BrokerDetails.MessageNack | internal/provider/connectors/amqp091/amqp091shim.go:425-443 | a requeue over the cap becomes a rejection |
| BrokerDetails.BrokerDetails.Deliver | internal/provider/connectors/amqp091/amqp091.go:1187-1243 | one turn of the consumer loop: a message over the cap is rejected at once, any other becomes active under a new uuid |
| BrokerDetails.BrokerDetails.DeclareExchange | internal/provider/connectors/amqp091/amqp091.go:671-724 | the declaration with its name check, cache and ignored errors is the topology function |
| BrokerDetails.BrokerDetails.DeclareQueue | internal/provider/connectors/amqp091/amqp091.go:740-803 | the declaration is the topology function; a refused request still counts as known |
| BrokerDetails.BrokerDetails.ReadArguments | internal/provider/connectors/amqp091/amqp091.go:751-789 | the loop over options, in any order, accepts exactly the known options with integer values where integers are due, and fills the arguments from them |
| BrokerDetails.BrokerDetails.DeclareBinding | internal/provider/connectors/amqp091/amqp091.go:954-1024 | the nested loops over subjects and filter tables followed by the cleanup are the topology function |
| BrokerDetails.BrokerDetails.CleanupBindings | internal/provider/connectors/amqp091/amqp091.go:929-952 | exactly the listed bindings under unwanted keys go, except where the delete fails |
| BrokerDetails.BrokerDetails.Subscribe | internal/provider/connectors/amqp091/amqp091.go:1044-1092 | the declarations of a subscription, dead letter setup included, are the function the dead letter theorem is about |
| BrokerDetails.BrokerDetails.Reconnect | internal/provider/connectors/amqp091/amqp091.go:1961-2012 | the reset of the client on connect is the machine's reconnect |
| Topology.ForcedDeclareReconciles | internal/provider/connectors/amqp091/amqp091.go:929-1024 | after a forced declaration on an accepting broker exactly these keys are bound between queue and exchange: the subjects of the address, the empty key for filters without subjects, none otherwise; repeating it changes nothing |
| Topology.DeclareIsLocal | internal/provider/connectors/amqp091/amqp091.go:929-1024 | whatever is refused or late, no wanted key is deleted, no other pair is touched, and only requested bindings are added or left pending |
| Topology.FilteredDelivery | internal/provider/connectors/amqp091/amqp091.go:965-1016 | a headers exchange delivers to the queue iff some filter accepts the headers, or a table kept from an earlier declaration does |
| Topology.FreshQueueIsFiltered | internal/provider/connectors/amqp091/amqp091.go:965-1016 | on a fresh queue the filters alone decide |
| Topology.OldFilterSurvives | internal/provider/connectors/amqp091/amqp091.go:929-952 | a message only the replaced filter accepts is still delivered after the new declaration |
| Topology.SourceNameIdempotent | internal/provider/connectors/amqp091/amqp091.go:726-738 | naming a source twice is naming it once, so Retry finds the queue that Subscribe declared |
| Subscriptions.SubscriptionNames | internal/provider/connectors/amqp091/amqp091.go:726-738 | a durable queue is declared under its name with ".quorum" at the end exactly once, every other source under its own name |
| Subscriptions.SubscriptionQueue | internal/provider/connectors/amqp091/amqp091.go:740-816 | which sources a subscription accepts when nothing is refused, and which queue a broker that had none has afterwards: type, TTL, expiry, dead letter arguments, single active consumer |
| Subscriptions.SubscriptionDeadLetterQueue | internal/provider/connectors/amqp091/amqp091.go:555-596 | the dead letter queue is named after the source without ".quorum", and is a classic queue without arguments unless it was there |
| Subscriptions.SubscriptionFailsIff | internal/provider/connectors/amqp091/amqp091.go:1044-1075 | for all combinations of refusals, a subscription fails iff its source is not acceptable or no channel can be had for its queue or its bindings |
| Subscriptions.RequestsDecide | internal/provider/connectors/amqp091/amqp091.go:818-1024 | after a subscription with nothing refused, a message published to the address reaches its queue iff one of the requested bindings matches by the rules of the exchange's type; dead letters make no difference |
| Subscriptions.QueueSubscription | internal/provider/connectors/amqp091/amqp091.go:598-614 | on a new QUEUE address: iff its key is one of the subjects |
| Subscriptions.TopicSubscription | internal/provider/connectors/amqp091/amqp091.go:598-614 | on a new TOPIC address: iff one of the subjects matches its key as a pattern |
| Subscriptions.FilterSubscription | internal/provider/connectors/amqp091/amqp091.go:965-1016 | on a new FILTER address with expressible filters: iff one of the filters accepts its headers, whatever its key |
| Subscriptions.UnfilteredSubscription | internal/provider/connectors/amqp091/amqp091.go:965-1016 | on a new FILTER address without filters: iff there is a subject |
| Subscriptions.StreamAddressGetsNothing | internal/provider/connectors/amqp091/amqp091.go:598-614 | on a new STREAM address: never, although the subscription succeeds |
| Filters.PreservedIffExpressible | internal/provider/connectors/amqp091/amqp091.go:965-989 | a filter and its binding table accept the same headers iff no match name is reserved, no two matches of one name disagree, and an ANY filter is not empty |
| Filters.CompileFilter | internal/provider/connectors/amqp091/amqp091.go:965-988 | the loop over the matches builds the table the theorem is about, later matches over earlier ones |
| Filters.InexpressibleDiffers | internal/provider/connectors/amqp091/amqp091.go:965-989 | headers on which an inexpressible filter and its table disagree |
| Amqp.HashMatchesAll | internal/provider/connectors/amqp091/amqp091.go:337-338 | "#" matches every routing key |
| Amqp.TopicMatchIffCut | internal/provider/connectors/amqp091/amqp091.go:598-602 | for every pattern: it matches exactly the keys that can be cut into parts so that "#" takes any words, "*" one word and every other word itself |
| Amqp.TopicMatchesItself | internal/provider/connectors/amqp091/amqp091.go:569-574 | a subject used as binding key matches itself as routing key, so a dead letter subject always reaches its queue |
| Streams.LatchIsExact | internal/provider/connectors/amqp091/amqp091.go:1315-1380 | in every run the latch count is messages admitted minus messages acked or nacked, equals what the client has plus the slots that retries and reconnects kept, never underflows and never exceeds the prefetch |
| Streams.SessionInOrder | internal/provider/connectors/amqp091/amqp091.go:1340-1378 | in every session of every run the client is handed the messages from the session's position on, in order, none twice and none left out; the latch counts handed over minus settled, told from the events |
| Streams.OnlyAcksStore | internal/provider/connectors/amqp091/amqp091.go:1357-1369 | in every session of every run the stored offset moves only with an ack that is taken, to the latest message that reached the consumer |
| Streams.KeptSlotsStall | internal/provider/connectors/amqp091/amqp091.go:331-332 | once retries and reconnects have kept every slot, the session admits nothing more |
| Streams.StoredNeverDecreases | internal/provider/connectors/amqp091/amqp091.go:1357-1369 | over any sequence of sessions that resume after the stored offset, the stored offset never decreases |
| Streams.AckedIsNotRedelivered | internal/provider/connectors/amqp091/streamshim.go:210-259 | over such sessions no message whose ack stored an offset is received in a later session |
| Streams.AckedIsNeverHandedAgain | internal/provider/connectors/amqp091/amqp091.go:1357-1369 | the same from the events alone: if every session asks to continue or starts by promotion, a message whose ack was stored is handed over in no later session |
| Streams.SessionHistories | internal/provider/connectors/amqp091/amqp091.go:1340-1378 | in every session, the sets and counts that the results on acks speak of are what the events of the session say |
| Streams.ContinueResumes | internal/provider/connectors/amqp091/streamshim.go:210-240 | sessions that ask to continue and sessions started by promotion begin right after the stored offset |
| Streams.WhereASessionStarts | internal/provider/connectors/amqp091/streamhelpers.go:99-122 | where a session starts for each offset word in any case of letters and for each number, and that every other option is refused |
| Streams.ResumeAfterStored | internal/provider/connectors/amqp091/streamhelpers.go:99-112 | "continue" in any case of letters and a promotion give the same start, the message after the stored one or the first |
| Streams.AckPassesNothingIff | internal/provider/connectors/amqp091/amqp091.go:1357-1369 | in every run, the offset an ack stores covers only messages of the session that were acked or nacked iff nothing waits at the latch, nothing else is with the client, and no retry or reconnect has made it forget a message |
| Streams.RetriedIsNeverReceivedAgain | internal/provider/connectors/amqp091/amqp091.go:331-332 | once a later ack has stored its offset, a message nacked with a delay is never received again, in this session or any later one that resumes |
| Streams.RetrySkipsAMessage | internal/provider/connectors/amqp091/amqp091.go:331-332 | a run with prefetch two in which the first message is nacked with a delay, the second acked, and the next session starts after both |
| Streams.AckSkipsABlockedMessage | internal/provider/connectors/amqp091/amqp091.go:1340-1369 | a run with prefetch one in which a message that nobody acked is skipped by the next session |
| Streams.SetSourceDefaults | internal/server/server.go:634-653 | the prefetch is at least one, an auto-delete queue expires after five minutes unless the client said otherwise, nothing else changes |
| Streams.Subscription.NewConsumer | internal/provider/connectors/amqp091/streamshim.go:210-259 | starting a consumer begins the session of the machine, or fails and changes nothing |
| Streams.Subscription.Deliver | internal/provider/connectors/amqp091/amqp091.go:1351-1378 | a message that gets through the latch becomes active and takes one slot |
| Streams.Subscription.Receive | internal/provider/connectors/amqp091/amqp091.go:1322-1353 | the consumer's offset moves before the handler blocks |
| Streams.Subscription.AckMessage | internal/provider/connectors/amqp091/amqp091.go:1357-1369 | an ack frees a slot and stores the consumer's current offset |
| Streams.Subscription.NackMessage | internal/provider/connectors/amqp091/amqp091.go:1370-1373 | a nack frees a slot and stores nothing |
| Streams.Subscription.RetryMessage | internal/provider/connectors/amqp091/amqp091.go:331-332 | a retry forgets the message and keeps its slot |
| StreamingPublish.SessionIsFaithful | internal/server/server.go:445-546 | in every interleaving of one session without confirmations, responses are in order, at most one per message and exactly one while sends succeed, and say Success iff the provider published exactly that message |
| StreamingPublish.FaithfulIffNoConfirm | internal/provider/connectors/amqp091/amqp091.go:1477-1523 | all interleavings of a session report faithfully iff no message with a single subject asks for a confirmation |
| StreamingPublish.ConfirmMisreports | internal/provider/connectors/amqp091/amqp091.go:1477-1523 | a run in which the first confirming message is published and answered with a failure |
| StreamingPublish.SessionEnds | internal/server/server.go:449-546 | in every run, after a timeout, an error that comes instead of a taker, a failed send or the end of the stream, nothing more is received or handed over; at most one response follows, a failure for the message on offer |
| StreamingPublish.ProviderStopIsFinal | internal/server/server.go:536-560 | once the provider stops, nothing more is handed over or published, however the run goes on |
| StreamingPublish.ProviderErrorEndsSession | internal/server/server.go:493-497 | if it stops with an error while a message is on offer, that message is answered with a failure and the session is over |
| BlockingPool.PoolIsBounded | internal/util/blocking_pool.go:34-98 | in every interleaving of callers that put back what they got, the counter is between 0 and the limit and equals idle, checked-out, in-transit and kept slots; live objects never exceed the limit and have one owner each |
| BlockingPool.FullBranchUnreachable | internal/util/blocking_pool.go:78-98 | for such callers the pool-is-full branch is never taken and a returned object always finds room |
| PoolHistory.AllocatesOnlyInNeed | internal/util/blocking_pool.go:36-76 | in every run, a Get constructs an object only if the pool was empty when it was called, or it has retired a stale object since |
| PoolHistory.IdleFirstInFirstOut | internal/util/blocking_pool.go:36-98 | in every run, idle objects come out in the order in which they were put back, none skipped |
| PoolHistory.PutThenGet | internal/util/blocking_pool.go:36-98 | in every reachable state with nothing idle, a caller that puts a valid object back and calls Get gets that object, and the state is as before |
| PoolHistory.StaleNeverReturns | internal/util/blocking_pool.go:36-98 | in every run, an object that failed validation in Get or Put is nowhere in the pool and never handed out again |
| PoolHistory.KeptSlotsHaveReasons | internal/util/blocking_pool.go:46-98 | in every run, slots are lost exactly to constructions that returned nil and to puts that a cancellation cut short; without a cancellation there is neither such a put nor a Get that gives up |
| BlockingPool.ForeignPutBreaksTheLimit | internal/util/blocking_pool.go:78-98 | for every limit, a run whose only foreign Put leaves more live objects than the limit |
| BlockingPool.OnlyARetiringPutStrands | internal/util/blocking_pool.go:34-98 | in every run in which no Put retires its object, no Get is left blocked beside a free slot with nobody else inside |
| BlockingPool.CanStrandIff | internal/util/blocking_pool.go:34-98 | some run of callers that put back what they got strands a Get iff the pool has a Validate function, the limit is positive and at least two goroutines use it |
| BlockingPool.KeptSlotsBlockForGood | internal/util/blocking_pool.go:34-76 | in every run, once all slots are kept by nil constructions or cancelled returns, no Get returns and no object comes out until the pool is cancelled |
| BlockingPool.OneNilConstructionBlocks | internal/provider/connectors/amqp091/streamshim.go:136-167 | in a pool of one, as for a named publisher, one nil construction is enough: the second turn of the retry loop waits |
| BlockingPool.RetiringPutStrandsAGet | internal/util/blocking_pool.go:78-98 | such a run, for every positive limit and any two goroutines |
| BlockingLatch.LatchIsSafe | internal/util/blocking_latch.go:71-96 | in every interleaving of Increment, Decrement and cancellation the count is within 0 and the maximum, one goroutine holds the lock, and no wakeup is lost: with a waiter asleep and the lock free, free slots never outnumber woken waiters |
| BlockingLatch.SleepersMeanFull | internal/util/blocking_latch.go:78-96 | if goroutines sleep and nobody else is inside, all slots are granted |
| BlockingLatch.CancellationMissedIff | internal/util/blocking_latch.go:78-96 | in every run, a goroutine can be asleep after the broadcast of a cancellation, at once or later, iff the broadcast found it between its check and its wait; at most one can |
| BlockingLatch.CancellationCanBeMissed | internal/util/blocking_latch.go:78-96 | for every maximum, a run in which a goroutine sleeps on although everybody else is outside |
| Reconnect.OneDial | internal/provider/connectors/amqp091/amqp091.go:1938-2024 | with any number of callers at most one dial is in progress, under the lock and never while connected |
| Reconnect.RetryEndsConnectedOrGone | internal/provider/connectors/amqp091/amqp091.go:1878-1918 | the watcher leaves its retry loop only connected or after the client disconnected |
| WatcherRuns.GivenUpOnlyWhenTold | internal/provider/connectors/amqp091/amqp091.go:1878-1918 | in the program's runs a live connection is given up only by the watcher, right after an error or a timer that found it closed |
| WatcherRuns.LossLeadsToConnect | internal/provider/connectors/amqp091/amqp091.go:1887-1914 | in every run, after an error or such a timer the watcher can only give the connection up and then enter connect, after an error unless the client has disconnected |
| WatcherRuns.AttemptsDial | internal/provider/connectors/amqp091/amqp091.go:1938-2024 | in the program's runs, an attempt of the watcher dials and answers with the outcome of that dial, unless the client disconnected |
| WatcherRuns.WatcherOrder | internal/provider/connectors/amqp091/amqp091.go:1878-1918 | in every run, with any callers, which event of the watcher can follow which: one attempt after a timer, retries after errors only |
| WatcherRuns.AnswersTruly | internal/provider/connectors/amqp091/amqp091.go:1922-2024 | in every run, with any callers, connect decides for true only while connected, and for false only after a disconnect or a failed dial |
| WatcherRuns.OneDialServesTwo | internal/provider/connectors/amqp091/amqp091.go:1922-1953 | a caller that comes while another one dials waits and answers with the outcome of that dial |
| WatcherRuns.StopsForGood | internal/provider/connectors/amqp091/amqp091.go:1878-1882 | in every run, after a shutdown, or at the top of its loop after a disconnect, the watcher does nothing more |
| Reconnect.LateNeverDials | internal/provider/connectors/amqp091/amqp091.go:1938-1941 | a connect that starts after the client disconnected never reaches the lock or a dial and never reports success |
| Reconnect.ResetIsHarmless | internal/provider/connectors/amqp091/amqp091.go:1878-1918 | in every run in which, from the start of the watcher on, only the watcher calls connect, its reset never overwrites a live connection |
| Reconnect.ResetSafeIffNoOtherCaller | internal/provider/connectors/amqp091/amqp091.go:1887-1904 | a generalisation to callers the program does not have: with goroutines that may call connect at any time, the reset is harmless in every run iff there are none besides the watcher |
| RateLimiter.EvictionInvisibleIff | internal/server/ratelimiter/ratelimiter.go:105-172 | culling at arbitrary times changes no decision in any run iff the eviction age, whole-second truncation included, is at least the time a bucket takes to fill; a maximum age of bucket size times refill interval is enough |
| RateLimiter.WindowBoundIff | internal/server/ratelimiter/ratelimiter.go:105-172 | when enforcing, every window of every run admits at most bucket size plus window over interval requests of a client, under exactly the same condition |
| RateLimiter.CachingInvisible | internal/server/ratelimiter/ratelimiter.go:105-172 | the evicting map decides like the map that never evicts, from any pair of maps that agree up to full buckets |
| RateLimiter.AdmissionsArePaid | internal/server/ratelimiter/ratelimiter.go:122-172 | every admission is paid by tokens at hand or time passed |
| RateLimiter.DrainTwiceTellsApart | internal/server/ratelimiter/ratelimiter.go:105-119 | with a shorter eviction age, a burst repeated after a cull is let through twice |
| RateLimiter.ClientLimitManager.Limit | internal/server/ratelimiter/ratelimiter.go:122-172 | Limit on the map is the decision function; a caller without an identifier always proceeds, and when enforcing at no cost; a refused request leaves its bucket alone and every request the other clients; without enforcement everything proceeds but buckets are charged all the same |
| RateLimiter.AnonymousCostNothing | internal/server/ratelimiter/ratelimiter.go:122-131 | when enforcing, requests without an identifier change no decision of any run for the identified clients |
| RateLimiter.ClientLimitManager.CullStaleClients | internal/server/ratelimiter/ratelimiter.go:105-119 | the walk over a snapshot of keys deletes exactly the stale clients |
| RateLimiter.NewClientLimitManager | internal/server/ratelimiter/ratelimiter.go:78-89 | a manager is made iff all parameters are positive, and it starts empty |
| ClientRegistry.RegistriesAgree | internal/server/server.go:76-92 | in every run ActiveStreams is the number of open sessions, provider clients are connected clients, and a trim makes the two equal |
| ClientRegistry.CleanerEvictsIdleOnly | internal/provider/connectors/amqp091/cleaner.go:31-42 | in every run, a tick evicts a client iff no session is open on its object and the latest event on it, read off the list of events (connect, start or end of a stream, subscription, publish), is longer ago than the interval |
| ClientRegistry.TouchesFollow | internal/provider/connectors/amqp091/amqp091.go:647-659 | in every run, lastPubSubEvent is the time of the latest event on the object |
| ClientRegistry.ConnectMakesOne | internal/server/server.go:655-713 | in every run, a client that is not connected becomes connected iff an attempt is accepted, with an object of its own timed from then; with no attempts allowed it is called connected without an object; nobody else is affected |
| ClientRegistry.DisconnectRemovesOne | internal/server/server.go:715-731 | in every run, a client that disconnects is in neither registry afterwards, and nobody else is affected |
| ClientRegistry.EvictedClientMustWaitForTrim | internal/server/server.go:655-713 | an evicted client's connect does nothing until a trim, and works after it iff the broker accepts one of the attempts |
| ClientRegistry.Registry.Connect | internal/server/server.go:655-713 | the retry loop connects at the first accepted attempt and reports whether the client is connected |
| ClientRegistry.Registry.Clean | internal/provider/connectors/amqp091/cleaner.go:21-45 | the walk over a snapshot disconnects exactly the dead clients |
| ClientRegistry.Registry.Trim | internal/server/server.go:76-92 | the walk over a snapshot forgets exactly the clients the provider does not know |
| ClientRegistry.Registry.EndStream | internal/provider/connectors/amqp091/amqp091.go:656-659 | the deferred decrement goes to the object the stream started on, even after the client was evicted |
| ClientRegistry.Registry.Use | internal/provider/connectors/amqp091/amqp091.go:647-649 | a subscription or a publish sets the time of the client's last event |
| HealthRegistry.RegistryIsExact | internal/server/server.go:770-804 | in every interleaving of sessions an address is registered iff its latest registrant is still running, with that registrant's open channel, and every channel is closed at most once |
| HealthRegistry.SessionsAreTheEvents | internal/server/server.go:770-804 | in every run the sessions are those that began, in order, and the channels closed are those of the close events |
| HealthRegistry.EndingIsLocal | internal/server/server.go:799-804 | ending a superseded session leaves the registry alone, ending the current one frees its address only |
| HealthRegistry.SendMeetsClosedIff | internal/server/server.go:778-804 | in every run, the send of a broadcast meets a closed channel iff the session closes it between lookup and send, and blocks iff the session has begun to end and not closed it yet |
| HealthRegistry.BroadcastCanMeetAClosedChannel | internal/server/server.go:778-787 | such a run |
| ConcurrentMaps.ConcurrentMap.DeleteIfEqual | internal/util/concurrentMap.go:41-49 | deletes the key iff it still holds the expected value, and says whether the map changed |
| ConcurrentMaps.ConcurrentMap.GetList | internal/util/concurrentMap.go:62-70 | every key exactly once |
| I18n.RoundsAreSimultaneous | i18n/message_loader.go:140-150 | on templates whose opening braces start closed groups, and arguments without an opening brace (the last one is free), the rounds of ReplaceAll are one simultaneous substitution |
| I18n.T | i18n/message_loader.go:140-150 | looking up, falling back to the id and filling in rounds gives that substitution |
| I18n.OutOfRangeStays | i18n/message_loader.go:140-150 | placeholders beyond the arguments stay as they are |
| I18n.ArgumentTextIsRescanned | i18n/message_loader.go:140-150 | an argument that looks like a later placeholder is filled again |
| I18n.NestedBracesAreRescanned | i18n/message_loader.go:140-150 | nested braces form a new placeholder once the inner one is filled |
| MessageTemplates.MessageTemplate.GetBodyAndHeaders | tools/anarkey/types.go:199-224 | joining the parts cut at load is left-to-right replacement of every marker in the body and in every header |
| MessageTemplates.MessageTemplate.Load | tools/anarkey/types.go:167-195 | loading cuts the body and exactly the headers that hold a marker |
| MessageTemplates.NoMarkerRemains | tools/anarkey/types.go:199-224 | for ids without "@", no filled text holds a marker iff the id is not one of the four that complete one; a UUID is not |
| MessageTemplates.OverlapKeepsTheRest | tools/anarkey/types.go:199-224 | in overlapping markers the left one is replaced and the rest stays text |
| Text.JoinSplit | tools/anarkey/types.go:178-223 | cutting at every separator and joining with a replacement is ReplaceAll |

## Left out

- Starting and stopping goroutines, gRPC, TLS, dialling, the management HTTP client, JSON, metrics, tracing, logging: I/O; their outcomes are parameters of the events.
- Panics and their recovery, and data races on plain fields: every dispatch, delivery and declaration is one step.
- A uuid is taken to be acknowledged on the stream that delivered it; the guard `Own` says so.
- Delivery tags are taken to be unique over the life of a client; the broker numbers them per channel. A delivery with tag 0 is skipped by the consumer loop and is not part of the model.
- SettlementRuns.DeliveriesAreCapped: the broker is taken to write the number of earlier acquisitions into x-acquired-count and to start again at 0 for a message that was published again or dead-lettered.
- Names of subscriptions and of other clients' queues are taken not to be retry names, and other clients are taken not to delete queues or retry topologies (`Outsider`, `Grows`).
- TTL of home queues, length limits and x-expires of queues: messages leave a home queue only by being settled.
- Keys of the binding cache and of the publisher pools are taken to be injective; the binding cache key is the pair of queue name and subjects.
- GetPublisher and PutPublisher: what they add to `BlockingPool` is a lookup by key and a retry loop around Get.
- Parent addresses (exchange to exchange bindings) and the preloaded exchange list: declared names are the only known ones.
- Reading the retry, dead letter and acquired-count headers is modelled, the other headers and the body are not; the retry exchange is a topic exchange, so they play no part in its routing.
- Compression, decompression and header conversion of stream messages.
- BlockingLatch.LatchIsSafe: WaitForEmpty and SetMax are not part of the machine, because they share the condition variable and could absorb a signal.
- Topology.ForcedDeclareReconciles: says which bindings hold once the accepted bind requests are in effect; so do FilteredDelivery and FreshQueueIsFiltered.
- DeadLetters.RejectedReachesDeadLetterQueue: is about a subscription whose bind requests are in effect at once; so is RejectionsOverRuns, which records where a rejected message is stored and does not follow it from there. The headers of a message play no part in it.
- Subscriptions.FilterSubscription: nothing may be bound between address and queue before; what earlier bindings add is in `FilteredDelivery`.
- Conservation.NothingIsLost: a late bind request that the broker refuses later is one that never takes effect.
- I18n.RoundsAreSimultaneous: only the sufficient half is claimed; an argument with an opening brace that can start no later placeholder is harmless too.
- BlockingPool.OnlyARetiringPutStrands: is about a Get beside a free slot with nobody else inside, not about fairness.
- StreamingPublish.SessionIsFaithful: deadlock freedom and sessions that overlap are not covered.
- Streams.StoredNeverDecreases: an ack that comes after its session ended is not part of the machine; it would store the old consumer's offset.
- Streams.ResumeAfterStored: lower-casing covers the letters A to Z.
- RateLimiter.EvictionInvisibleIff: the bucket is exact integer arithmetic; the floating-point tokens of the library and the conversion of the configured limit are not modelled.
- Reading the `@id@` template from a file, and generating the UUID.
