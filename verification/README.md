# Provisioning pipeline: a model and its proofs

The repository carries changes of an LDAP directory to subscribers. An LDAP change is queued; the
UDM transformer turns it into an event, remembering old objects in a cache; the dispatcher copies
each event to the main subject of every subscription that asked for its topic; a prefill worker
copies the present directory to a subscription's prefill subject; the API hands a consumer its
prefill first and live messages after it; the consumer's handler calls its callbacks and then
acknowledges. This project models these components and proves what they promise together: nothing
is lost, reordered or shown half finished, whatever fails and is delivered again.

## How the components are modelled

| module | repository file | form |
|---|---|---|
| `Transformer` | `udm_transformer/service/udm.py`, `udm_transformer/controller.py` | classes; one port call is one step |
| `Dispatcher`, `FanOut` | `server/core/dispatcher/service/dispatcher.py` | classes over heap-allocated sets |
| `Prefill`, `PrefillRetry`, `PrefillQueue` | `server/core/prefill/service/udm_prefill.py` | class with nested loops |
| `MessageService`, `Stages` | `server/services/messages.py` | class, and all interleavings of its calls |
| `Gate`, `GateOrder`, `GateRuns`, `GateNone`, `GateWhole`, `GateStatus`, `GateReuse`, `GateDrain`, `GateLimits` | the prefill worker, the dispatcher, the API and a consumer around one subscription | interleaving of steps |
| `Registry`, `RegistryRuns`, `RegistryRecords` | `server/services/subscriptions.py`, `server/core/app/subscriptions.py` | class over the two buckets, the streams and the prefill queue |
| `Handler`, `HandlerRuns` | `univention/provisioning/consumer/api.py` | class with loops |
| `Lease` | `server/utils/message_ack_manager.py` | loop over real time |
| `JetStream` | `server/adapters/nats_adapter.py` | the operations on one stream as functions |
| `Convergence`, `Untyped`, `Chaining`, `Subscriber`, `Snapshot`, `MovingFill`, `EndToEnd` | properties across components | lemmas |
| `Models`, `Sequences`, `Replica` | shared data and facts about logs | |

Every `await` on a port can fail. A service class therefore talks to a port object whose
`callsLeft` says how many calls still succeed before the process dies; the specification functions
take the same number as a *budget*, and the theorems quantify over every list of budgets, so over
every pattern of crashes and redeliveries. Where answers matter (`MessageService`, `Handler`, the
directory the prefill worker reads) the environment is an arbitrary function from the number of
calls made so far to the answer, so the directory may change between any two calls. An operation
that reads, awaits and then writes (`SetSubscriptionQueueStatus`, `AuthenticateUser`) has its second
half as a method of its own, which may find anything written in between. The endless
fetch loops appear as methods over any number of deliveries or rounds. Each method is specified by
a function of its old state, and the theorems are about these functions. For every operation some of
them speak of its inputs, its surroundings and the state it leaves only, so that they say what the
operation does without reference to how it does it.

`Collapse` drops an entry equal to the one right before it: this is what "up to redelivered
copies" means everywhere below. `Subscription` equality is structural, as in
`univention/provisioning/models/subscription.py:44-62` (the comparison of all fields comes first;
the later checks there cannot change it), and hashing by name agrees with it.

## What is assumed about the environment

* A queue delivers its oldest unacknowledged message until it is acknowledged, with a delivery
  count that starts at 1 (`docs/queue_configuration.md:37-46` and `67-75`, `max_ack_pending=1` in
  `server/adapters/nats_adapter.py:397-412`). A fetch from a subject answers its oldest entry or
  None (`docs/queue_configuration.md:81-97`). That None means an empty prefill subject is a separate
  hypothesis on the run, `HonestRun` (or the switch `Config.emptyMeansEmpty`): it fails while a
  delivered message waits for its acknowledgement.
* `Config.ackLands` says that the acknowledgement of a prefill request is not lost after status
  `done` was reported.
* `ldap_to_udm` is a function of the entry. `KeepsUuids`, `NamesTypes`, `Total` and `StableTypes`
  are named hypotheses on it; each lemma lists those it needs.
* The UDM REST API lists every object exactly under its own type, and a uuid stands for one object
  (`Snapshot.Consistent`). The URL of an object names its type (`MovingFill.UrlsNameTypes`). What it
  shows the worker is the directory after some number of the events that reach the dispatcher once
  it knows the subscription (`MovingFill.Along`): it may be ahead of the events, but not behind.
* A password check is a relation between passwords and hashes; an upgraded hash accepts what the
  old one accepted (`UpgradesFaithfully`). Matching a topic pattern is any predicate on a pattern
  and a type name.
* A run of `Gate` is about one registration of a name; `GateReuse` says what a second one may start from.
* Other subscriptions come and go while events are dispatched (`FanOut`); the one a statement is about stays.

## Results where the code does less than one might expect

* A registration that fails between writing the record and its last write cannot be completed by a
  retry: the retry reports that the subscription exists. `docs/prefill/prefill-architecture.md:47`
  asks for a retry. (`RetriedRegistrationCompletesExactlyWhen`)
* A deletion that fails right after the record leaves the stream, and the retry answers that there
  is no such subscription. (`RetriedDeletionCompletesExactlyWhen`)
* A status update writes back the record it read, and an authentication stores a hash upgraded from
  the one it read. If the subscription was deleted in between, the record or the credentials come
  back alone; if it was registered anew, its topics or its password are replaced by the old ones.
  (`StaleStatusWriteExactlyWhen`, `StaleRehashExactlyWhen`)
* The prefill request of a deleted subscription is never acknowledged; past the limit every
  delivery adds an entry to the failure queue, and no later request is ever served.
  (`DeletedSubscriptionIsNeverAcked`, `QueueAdvancesExactlyWhen`)
* A fetch that answers None while a prefill message is in flight opens the live subject too early.
  (`NoneKeepsOrderExactlyWhen`)
* A lost acknowledgement after `done` lets a second attempt refill while the consumer reads, unless
  the limit leaves no second attempt. (`PrefillIsWholeExactlyWhen`)
* `done` is not final then: another attempt turns it into `running`, and the delivery beyond the limit
  into `failed`. After `failed` only processes that have the flag of the name, and calls past the
  status check, hand out anything more. (`StatusMovesForwardExactlyWhen`, `FailedHandsOutExactlyWhen`)
* A name that is deleted and registered again while a process has its flag, or a call for it is past
  the status check, gets live messages before its new prefill. (`SecondPrefillIsReadFirstExactlyWhen`)
* Two registrations of one name that overlap can leave the hash of one and the record of the other.
  (`OverlappingRegistrationsAgreeExactlyWhen`)
* One change that `ldap_to_udm` raises on, one record without a stream, or one request of a deleted
  subscription keeps everything behind it in its queue. (`QueueAdvancesExactlyWhen` in `Convergence`,
  `FanOut` and `PrefillRetry`)
* Of two simultaneous calls for one name the second may read the prefill subject after the first
  has found it empty; a call reads live messages exactly if that happened before it began.
  (`GateHistory`, `OverlappingCallsGoBack`)
* An event is not sent when the object that names the topic has no type.
  (`Untyped.ConvergesExactlyWhen`)
* An object whose type changes to one outside the subscription stays in the subscriber's copy.
  (`TypeChangeLeavesStaleObject`, `InSyncExactlyWhen`, `ConsumerHoldsItsPartExactlyWhen`)
* Topic patterns are regular expressions for the prefill and literal for the dispatcher.
  (`PrefillIsThePartExactlyWhen`, `PatternTopicLeavesStaleObject`)
* `docs/prefill.md:28-29` and `50-56` call the final status `ok` and set `failed` when a fill is
  cut short. The code says `done`, retries after a failure, and sets `failed` only at the limit.
* A failure inside the prefill handler reaches the loop as an exception group, so the branch for
  `PrefillFailedError` (`udm_prefill.py:61-67`) is not taken; all failures end in a negative
  acknowledgement and a restart, which is what the model does.

## Model

| member | source | states |
|---|---|---|
| Transformer.UDMMessagingService.SendEvent | src/udm_transformer/service/udm.py:79-99 | An event goes out under the new side's type, else the old side's; nothing is sent without a side or without a type |
| Transformer.UDMMessagingService.HandleChanges | src/udm_transformer/service/udm.py:140-151 | For every number of port calls that succeed: which of reading the cache, storing and sending happened, in that order, and whether the change counts as handled |
| Transformer.UDMTransformerController.HandleNext | src/udm_transformer/controller.py:84-89 | One delivery of the oldest change; it is acknowledged only after the handler has returned |
| Transformer.UDMTransformerController.TransformEvents | src/udm_transformer/controller.py:56-89 | Any number of deliveries with restarts leaves exactly the queue position, cache and event log of `Deliveries` |
| Convergence.ConvergesUnderCrashes | src/udm_transformer/service/udm.py:140-151 | Over all crashes and redeliveries, folding the events gives the directory after the acknowledged changes or after the one in progress, and exactly the former at every acknowledgement |
| Convergence.ConvergesAtTheEnd | src/udm_transformer/controller.py:63-89 | With the queue empty, the fold of the events is the directory as `ldap_to_udm` represents it |
| Convergence.QueueAdvancesExactlyWhen | src/udm_transformer/controller.py:41-54 | The first n LDAP changes can all be acknowledged if and only if `ldap_to_udm` raises on none of them |
| Convergence.EventReachesNextView | src/udm_transformer/service/udm.py:79-99 | Sending a change's event brings both the view before it and the view after it to the view after it, so a resend is harmless |
| Untyped.ConvergesExactlyWhen | src/udm_transformer/service/udm.py:79-99 | Without the hypothesis on types, over all crashes and redeliveries: the fold is right at every acknowledgement if and only if every acknowledged LDAP change names a topic or leaves the representation as it was |
| Untyped.ObjectWithoutTypeIsLost | src/udm_transformer/service/udm.py:83-88 | A created object without a type that is acknowledged and never sent |
| Convergence.CompletedDeliveryConvergesExactlyWhen | src/udm_transformer/service/udm.py:83-88 | The same for one handled change from any state in which the fold is right |
| Chaining.OldSideUnderCrashes | src/udm_transformer/service/udm.py:71-77 | Every event's old side is what a consumer of all earlier events holds for the object, or the event is recognisable as a resend |
| Chaining.OldSideWithoutCrashes | src/udm_transformer/service/udm.py:140-151 | Without crashes every event's old side is exactly what a consumer holds: the cache stands for a scan of the event log |
| Dispatcher.BuildMapping | src/server/core/dispatcher/service/dispatcher.py:79-84 | The nested loops fill a fresh mapping whose entries are exactly the (subscription, realm and topic) pairs, none empty, no set shared |
| Dispatcher.AddToMapping | src/server/core/dispatcher/service/dispatcher.py:82-84 | One insertion adds the subscription under one realm and topic and leaves every other entry as it was |
| Dispatcher.DispatcherService.UpdateSubscriptionsMapping | src/server/core/dispatcher/service/dispatcher.py:78-85 | A rebuild installs the index of the list just read, made of new sets only |
| Dispatcher.DispatcherService.IndexEqualsScan | src/server/core/dispatcher/service/dispatcher.py:66 | A lookup gives exactly the subscriptions whose realms_topics contains the pair, and no realm entry is empty |
| Dispatcher.DispatcherService.SendToAll | src/server/core/dispatcher/service/dispatcher.py:68-72 | Whatever rebuilds happen during the sends, the message goes to the members of the set in hand and to nobody else, once each; success exactly when all calls succeed and all streams exist |
| Dispatcher.DispatcherService.Watch | src/server/core/dispatcher/service/dispatcher.py:33-34 | A change of the bucket that is noticed during a send is installed at once, and nothing else changes the list |
| Dispatcher.InstalledLast | src/server/core/dispatcher/service/dispatcher.py:78-85 | After any number of sends the list in use is the one read last while they were awaited, or the one from before |
| Dispatcher.DispatcherService.HandleMessage | src/server/core/dispatcher/service/dispatcher.py:45-76 | The receivers are those found at the lookup, the acknowledgement comes after the last send, and a failure leaves a part of the sends |
| FanOut.DispatchNext | src/server/core/dispatcher/service/dispatcher.py:25-43 | One round of the loop: a process that starts or is told of a change uses the list now in the bucket, any other the one it knows; the round is `Dispatch`, and what it knows afterwards is the list last read during the sends |
| FanOut.DispatchEvents | src/server/core/dispatcher/service/dispatcher.py:25-43 | The loop over any deliveries, crashes, restarts and rebuilds from any lists, while streams are created and deleted, is a run of `DispatchAll` in which every delivery uses the list its process has last read |
| FanOut.EveryListWasThere | src/server/core/dispatcher/service/dispatcher.py:78-85 | Every list used was in the bucket at some time before, and has distinct names if the bucket always had |
| FanOut.ListedFromThen | src/server/core/dispatcher/service/dispatcher.py:33-34 | From the first delivery whose process has started or been told of a change with the subscription in the bucket, the subscription is among those in use for as long as it stays |
| FanOut.ServedFromThen | src/server/core/dispatcher/service/dispatcher.py:25-76 | A subscription that is registered while the dispatcher runs: once a process has read a list with it and its empty stream is there, its main subject is the incoming queue from there on, filtered by its topics, for as long as it stays |
| FanOut.FanOutInOrder | src/server/core/dispatcher/service/dispatcher.py:66-76 | While other subscriptions come and go, a main subject, copies collapsed, is the incoming queue filtered by the subscription in order: all that is acknowledged and at most the message in progress |
| FanOut.QueueAdvancesExactlyWhen | src/server/core/dispatcher/service/dispatcher.py:68-76 | The first n incoming messages can all be acknowledged if and only if every subscription they go to has its stream |
| FanOut.StuckBehindMissingStream | src/server/core/dispatcher/service/dispatcher.py:68-76 | In every run only messages before the first one for a missing stream are ever acknowledged |
| FanOut.TargetedExactlyWhenWanted | src/server/core/dispatcher/service/dispatcher.py:66 | With distinct names a subscription is among the receivers if and only if it lists the literal realm and topic |
| JetStream.AppendOnSubject | src/server/adapters/nats_adapter.py:214-231 | Publishing to one subject of a stream appends to it and leaves the other subject alone |
| JetStream.PurgeOnSubject | src/server/adapters/nats_adapter.py:443-444 | Purging a subject empties it and leaves the other subject of the stream alone |
| JetStream.DeleteOnSubject | src/server/adapters/nats_adapter.py:434-441 | Deleting by number removes that entry and no other from each subject |
| Prefill.UDMPreFill.FillObject | src/server/core/prefill/service/udm_prefill.py:164-181 | Fetch, then publish the object as a creation; cut off after any call |
| Prefill.UDMPreFill.FillUdmTopic | src/server/core/prefill/service/udm_prefill.py:146-162 | The listing's objects in listing order; cut off after any call |
| Prefill.UDMPreFill.FetchUdm | src/server/core/prefill/service/udm_prefill.py:129-144 | The fully matching types in listing order; cut off after any call |
| Prefill.UDMPreFill.FillTopic | src/server/core/prefill/service/udm_prefill.py:115-127 | Status running and the topic's types, or nothing for another realm; cut off after any call |
| Prefill.UDMPreFill.Fill | src/server/core/prefill/service/udm_prefill.py:109-127 | Purge first, then the topics in request order |
| Prefill.UDMPreFill.HandleMessage | src/server/core/prefill/service/udm_prefill.py:93-107 | Beyond the limit the failure queue and status failed, else a fill and then status done; cut off after any call |
| Prefill.UDMPreFill.HandleRequestsToPrefill | src/server/core/prefill/service/udm_prefill.py:49-76 | Any number of deliveries of a queue of requests, one in flight at a time, with restarts and a directory that changes between any two calls, is a run of `ServeAll`, which `PrefillQueue` is about |
| PrefillRetry.RetryRefinesCleanRun | src/server/core/prefill/service/udm_prefill.py:109-181 | Over an unchanged directory any attempts leave a prefix of one clean run; an acknowledged request left all of it under done or was given up at the limit; live messages are untouched |
| PrefillRetry.LastFillWins | src/server/core/prefill/service/udm_prefill.py:109-127 | Whatever earlier attempts saw, an acknowledged fill leaves exactly what its own reads found, in order |
| PrefillRetry.TopicsPublish | src/server/core/prefill/service/udm_prefill.py:115-181 | While the directory does not change, the publishes of a fill are the concatenation over topics, matching types and listed objects |
| PrefillRetry.BoundedFills | src/server/core/prefill/service/udm_prefill.py:93-110 | The purges performed on the stream, one to a fill that is begun, are at most min(n, m) after n deliveries under limit m, and exactly that many if every attempt makes its first call; no failure entry up to the limit |
| PrefillRetry.EndsAtTheLimit | src/server/core/prefill/service/udm_prefill.py:93-103 | If the three calls of delivery m + 1 succeed the request is acknowledged by then: by a fill, or with status failed and one failure entry |
| PrefillRetry.GiveUpIsAckedExactlyWhen | src/server/core/prefill/service/udm_prefill.py:99-103 | A delivery beyond the limit is acknowledged if and only if the subscription exists and its three calls succeed |
| PrefillRetry.DeletedSubscriptionIsNeverAcked | src/server/core/prefill/service/udm_prefill.py:93-103 | Without the subscription no delivery is ever acknowledged, and the failure queue grows by one per delivery beyond the limit |
| PrefillRetry.QueueAdvancesExactlyWhen | src/server/core/prefill/service/udm_prefill.py:49-76 | The first n requests of the queue can all be acknowledged if and only if none of their subscriptions was deleted |
| PrefillRetry.StuckBehindDeleted | src/server/core/prefill/service/udm_prefill.py:49-76 | In every run only requests before the first deleted subscription are ever acknowledged |
| PrefillQueue.ServesLikeDeliveries | src/server/core/prefill/service/udm_prefill.py:49-76 | In every run of the queue the store is what the deliveries of the request at the head have made of the store as it was when that request became the head; the next request is served from its first delivery on exactly after an acknowledgement |
| PrefillQueue.EveryRequestIsServed | src/server/core/prefill/service/udm_prefill.py:49-107 | Over an unchanged directory, after any deliveries: an acknowledged request that no later one for the same subscription has overtaken has left exactly what it asked for under done, or failed with the request itself in the failure queue; all live messages stay, and every subscription nobody asked to prefill is as it was |
| PrefillQueue.RequestInProgress | src/server/core/prefill/service/udm_prefill.py:49-127 | A request in progress shows a prefix of what it asks for, or still what was there before; all other subscriptions are as they were when it became the head |
| PrefillQueue.StatusDuringFill | src/server/core/prefill/service/udm_prefill.py:109-127 | Wherever a fill is cut off: the status is the old one until the first topic, running from then on, and done if and only if every call was made |
| MessageService.MessageService.CheckSubscriptionStatus | src/server/services/messages.py:35-45 | The status is read until it is done or missing or the read comes after the deadline, and no earlier read is the answer |
| MessageService.MessageService.GetNextMessage | src/server/services/messages.py:47-87 | One call: with the flag a fetch from the main subject; without it all reads of the status up to the last, and a fetch from the prefill subject if that one says done; when the flag is set, and what is returned |
| MessageService.PrefillIsFetchedExactlyWhen | src/server/services/messages.py:35-72 | An undisturbed call without the flag fetches from the prefill subject if and only if some read up to the one after the deadline says done and all before it are neither done nor missing; otherwise it makes all its reads or stops at the first that finds no subscription |
| MessageService.GateHistory | src/server/services/messages.py:61-79 | For all interleavings of calls and all answers: a live fetch happens if and only if a prefill fetch for the name answered None before the call began, and that one came after a read of done |
| MessageService.FlagsAreFinal | src/server/services/messages.py:30-79 | The flag of a name is set if and only if a prefill fetch answered None, and is never taken back |
| MessageService.SequentialCallsNeverGoBack | src/server/services/messages.py:61-79 | With calls that do not overlap, no prefill fetch for a name follows one that answered None |
| MessageService.OverlappingCallsGoBack | src/server/services/messages.py:61-79 | Two calls at once for which that fails |
| GateOrder.EveryRunKeeps | src/server/services/messages.py:61-79 | In every interleaving: done is reported only by a complete fill, nothing is read before it, nothing is filled after it, and each subject is consumed from its front |
| GateOrder.AckKeepsOrder | src/server/services/messages.py:101-103 | Deleting a message the consumer was given, now or long ago, takes the head of its subject or nothing |
| GateRuns.NoPartialPrefillIsVisible | src/server/core/prefill/service/udm_prefill.py:105-127 | Nothing is handed out before one attempt has published all it set out to and reported done; prefill messages handed out are from that attempt |
| GateRuns.FillCallsAreAPlan | src/server/core/prefill/service/udm_prefill.py:109-181 | The worker's calls for a request are such an attempt, whatever its reads find |
| GateRuns.StatusOnlyMovesForward | src/server/core/prefill/service/udm_prefill.py:93-127 | pending to running, done or failed; running to done or failed; done and failed are final; without prefill it stays done |
| GateRuns.EachSubjectInOrder | src/server/services/messages.py:89-103 | Each subject is handed out in order and without loss, whatever the fetches answer |
| GateNone.NoneKeepsOrderExactlyWhen | src/server/services/messages.py:72-79 | After any run whose Nones meant an empty prefill subject: answering None from the prefill subject keeps the order in everything that can follow if and only if the subject is empty |
| GateRuns.OrderKeptIfHonest | src/server/services/messages.py:59-87 | If None from the prefill subject always means that it is empty, the consumer sees a prefix of prefill followed by live messages in every run |
| GateRuns.OrderHoldsExactlyWhen | src/server/services/messages.py:59-87 | Whatever the fetches answer, that order holds if and only if each live message was handed out after all prefill messages and each prefill message before any live one |
| GateRuns.PrefillBeforeLive | src/server/services/messages.py:59-87 | The order in every run of a queue that answers None only for an empty subject |
| GateRuns.EverythingHanded | src/server/services/messages.py:59-103 | A consumer that has emptied both subjects was handed the whole prefill and then every live message |
| GateDrain.DoneMeansEverythingCanBeRead | src/server/services/messages.py:47-103 | From every reachable state with status done, calls and acknowledgements alone hand the consumer the whole prefill and then every live message |
| GateDrain.EverythingCanBeHandedExactlyWhen | src/server/services/messages.py:47-103 | In any reachable state that is still possible if and only if done is reported or an attempt within the limit is under way or allowed |
| GateLimits.NoneInFlightSkipsPrefill | src/server/services/messages.py:72-79 | A run, for every limit that allows a fill, in which None is answered for a message in flight and a prefill message is overtaken |
| GateWhole.PrefillIsWholeExactlyWhen | src/server/core/prefill/service/udm_prefill.py:49-107 | In all runs the reported fill is complete and every prefill message handed out is from it, if and only if the acknowledgement after done lands or the limit leaves no second attempt |
| GateLimits.LostAckShowsPartialPrefill | src/server/core/prefill/service/udm_prefill.py:105-127 | A run, for every limit that leaves a second attempt, in which the acknowledgement after done is lost and a fill in progress is read |
| GateLimits.LostAckTurnsDoneIntoFailed | src/server/core/prefill/service/udm_prefill.py:93-107 | A run, for every limit from 1 on, in which the acknowledgement on the last allowed attempt is lost and done becomes failed |
| GateStatus.LostAckTurnsDoneIntoRunning | src/server/core/prefill/service/udm_prefill.py:105-127 | A run, for every limit that leaves a second attempt and without a limit, in which done becomes running |
| GateStatus.StatusMovesForwardExactlyWhen | src/server/core/prefill/service/udm_prefill.py:49-127 | In all runs the status moves forward only, so that done and failed are final, if and only if the acknowledgement after done lands or no fill is allowed |
| GateStatus.FailedHandsOutExactlyWhen | src/server/services/messages.py:61-79 | In any reachable state with status failed, something more can be handed out if and only if a process has the flag or a call is past the status check |
| GateReuse.SecondPrefillIsReadFirstExactlyWhen | src/server/services/messages.py:30-79 | After a second registration of a name, the order is kept in all honest runs if and only if no process has the flag of the name and no call for it is past the status check |
| Registry.SubscriptionService.IsSubscriptionsMatching | src/server/services/subscriptions.py:63-79 | Same prefill flag, same topics, and the password accepted by the stored hash |
| Registry.SubscriptionService.PrepareAndStoreSubscriptionInfo | src/server/services/subscriptions.py:105-126 | Record with its first status, stream, consumer, in this order; cut off after any write |
| Registry.SubscriptionService.CreateSubscription | src/server/core/app/subscriptions.py:68-80 | The create request, cut off after any write: exists, conflict, or credentials, record, stream, consumer and prefill request in this order |
| Registry.SubscriptionService.DeleteSubscription | src/server/services/subscriptions.py:163-178 | Credentials, record, stream, consumer, in this order, or not found; cut off after any write |
| Registry.SubscriptionService.SetSubscriptionQueueStatus | src/server/services/subscriptions.py:150-161 | If nothing is written in between: only the status of the record changes, or not found |
| Registry.SubscriptionService.FinishSetSubscriptionQueueStatus | src/server/services/subscriptions.py:157-161 | The record that was read is written back with the new status, over whatever is stored by then |
| Registry.SubscriptionService.VerifyAndUpdatePassword | src/server/services/subscriptions.py:29-39 | The cached verdict for the same arguments, else a fresh one, which is then cached |
| Registry.SubscriptionService.FinishAuthenticateUser | src/server/services/subscriptions.py:193-203 | Verdict and cache by the hash that was read, and the upgraded hash written over whatever is stored by then; a negative verdict does not stay cached |
| Registry.SubscriptionService.AuthenticateUser | src/server/services/subscriptions.py:188-203 | The whole authentication if nothing is written in between |
| RegistryRecords.RegistrationHolds | src/server/services/subscriptions.py:105-118 | A registered free name has a record with the given name, topics and flag, and a prefill request with these topics if and only if one was asked for; its status is the last one reported, and before that pending with prefill and done without; other operations keep all that |
| RegistryRecords.GateStartsAsRegistered | src/server/services/subscriptions.py:106-109 | As long as no status is reported the record is pending if and only if its request is queued and done otherwise, which is where a run of `Gate` starts |
| RegistryRecords.RegistrationAnswers | src/server/services/subscriptions.py:81-103 | Created and interrupted say whether a registration of a free name made all of its writes, and created that all parts are there; exists and conflict change nothing |
| RegistryRecords.DeletionAnswers | src/server/services/subscriptions.py:163-178 | Ok if and only if the subscription was found and all four deletions were made, and then nothing of it is left; not found changes nothing |
| RegistryRecords.StatusAnswers | src/server/services/subscriptions.py:150-161 | Ok if and only if the record was found and written; it then has the new status, and nothing else is changed |
| RegistryRecords.AuthenticationAnswers | src/server/services/subscriptions.py:188-203 | Rejected, accepted, or unanswered because an upgraded hash could not be stored; an accepted login has stored it |
| RegistryRecords.AuthenticationCaches | src/server/services/subscriptions.py:29-39 | After a login its key is cached, with the verdict of a fresh check, if and only if the password was accepted; no other entry changes |
| RegistryRuns.CreateStages | src/server/services/subscriptions.py:81-126 | The registry after the first k writes of a registration, for every k |
| RegistryRuns.DeleteStages | src/server/services/subscriptions.py:163-178 | The registry after the first k deletions, for every k |
| RegistryRuns.FinishIsDirect | src/server/services/subscriptions.py:193-203 | With a sound cache: the verdict is that of a direct check against the hash that was read, and the upgrade is stored if and only if there is one |
| RegistryRuns.ListingsAgreeExactlyWhen | src/server/services/subscriptions.py:46-57 | The API's listing by credentials and the dispatcher's by records agree if and only if the two buckets have the same keys |
| RegistryRuns.CouplingIsKept | src/server/services/subscriptions.py:93-178 | After any completed operations credentials, records, streams and consumers have the same names, and both listings agree |
| RegistryRuns.AuthenticationCacheIsTransparent | src/server/services/subscriptions.py:188-203 | After any operations, completed, cut off after any write or interleaved write by write, and any evictions and rehashes, the verdict is that of a direct check against the hash now stored, and only positive verdicts stay cached |
| RegistryRuns.ApplyKeepsParameters | src/server/services/subscriptions.py:150-203 | Operations on other names, status updates and rehashes change neither a subscription's parameters nor which passwords are accepted |
| RegistryRuns.RegistrationIsIdempotent | src/server/services/subscriptions.py:81-103 | Registering again changes nothing; it reports exists if and only if topics, prefill flag and password are those of the first registration |
| RegistryRuns.RetriedRegistrationCompletesExactlyWhen | src/server/services/subscriptions.py:84-103 | Retries reach the state of one uninterrupted registration if and only if no try stopped between the record and its last write |
| RegistryRuns.RetryAfterTheRecordDoesNothing | src/server/services/subscriptions.py:84-101 | A try stopped after the record, whose retry reports exists and makes no stream |
| RegistryRuns.OverlappingRegistrationsAgreeExactlyWhen | src/server/services/subscriptions.py:84-101 | Two registrations that both found the name free leave the hash and the record of one of them, in all interleavings, if and only if the one that writes first does not also write last |
| RegistryRuns.RetriedDeletionCompletesExactlyWhen | src/server/services/subscriptions.py:163-175 | Retries remove everything if and only if no try stopped right after the record |
| RegistryRuns.RetryAfterRemovingTheRecordFindsNothing | src/server/services/subscriptions.py:168-175 | A deletion stopped there, whose retry answers not found |
| RegistryRuns.StaleStatusWriteExactlyWhen | src/server/services/subscriptions.py:150-161 | A status written after other operations does what an update at that moment would do, and leaves coupling and parameters alone, if and only if the record now stored is the one read up to its status |
| RegistryRuns.StaleStatusWriteKeepsCouplingExactlyWhen | src/server/services/subscriptions.py:150-161 | The names alone stay coupled if and only if some record of the name is there |
| RegistryRuns.StatusWrittenAfterReRegistration | src/server/services/subscriptions.py:150-161 | After a deletion and a new registration in between, the old topics are back |
| RegistryRuns.StatusWrittenAfterDeletion | src/server/services/subscriptions.py:150-161 | After a deletion in between, the record is back and the two listings differ |
| RegistryRuns.StaleRehashExactlyWhen | src/server/services/subscriptions.py:192-198 | A hash stored after other operations keeps coupling and accepted passwords if and only if the user still has a hash and it accepts what the one read accepts |
| RegistryRuns.RehashAfterDeletion | src/server/services/subscriptions.py:192-198 | After a deletion in between, the credentials are back and the two listings differ |
| RegistryRuns.RehashAfterReRegistration | src/server/services/subscriptions.py:192-198 | After a deletion and a new registration in between, the new password is rejected and the old one accepted |
| Handler.MessageHandler.Create | src/univention/provisioning/consumer/api.py:131-132 | There is no handler without callbacks |
| Handler.MessageHandler.AcknowledgeMessageWithRetries | src/univention/provisioning/consumer/api.py:140-167 | Attempts and sleeps of the loop, for every limit and every pattern of successes, caught failures and escaping exceptions |
| Handler.MessageHandler.RunCallbacks | src/univention/provisioning/consumer/api.py:182-190 | The callbacks in list order up to the first exception |
| Handler.MessageHandler.Run | src/univention/provisioning/consumer/api.py:169-204 | Any number of rounds of the loop is a run of `Rounds`, which `HandlerRuns` is about |
| Handler.AckEffort | src/univention/provisioning/consumer/api.py:140-167 | Between 1 and R + 1 attempts, one fewer sleeps, 2^n - 1 tenths of a second for n up to 9 and 511 + 300 (n - 9) beyond; all attempts but the last failed, and the last failed only if it is attempt R + 1 |
| Handler.AcksComeLast | src/univention/provisioning/consumer/api.py:178-192 | Every acknowledgement attempt comes after the same message was received and all callbacks ran on it in list order, with no other message received in between |
| Handler.EveryRunHandles | src/univention/provisioning/consumer/api.py:178-204 | Every callback gets the received messages in order; only a limit other than 0 makes the run return, and then exactly that many messages were handled |
| HandlerRuns.HandledIsAcknowledgedExactlyWhen | src/univention/provisioning/consumer/api.py:178-199 | In every run, between a received message and the next poll or the end, either one callback raises and nothing is acknowledged, or all run in order; then the message is acknowledged, in 1 to R + 1 tries with the pauses of `AckEffort`, if and only if pop_after_handling is set and R is not negative |
| HandlerRuns.EveryRunAnswers | src/univention/provisioning/consumer/api.py:140-204 | Every event of a run is what its surroundings answered at that point; a run is cut short if and only if its last poll, callback or acknowledgement let an exception escape, and polls once each round otherwise |
| Lease.MessageAckManager.ProcessMessageWithAckWaitExtension | src/server/utils/message_ack_manager.py:15-35 | Exactly the renewals due before the handler ends, at the times the model gives them, and none after it |
| Lease.LeaseHeldExactlyWhen | src/server/utils/message_ack_manager.py:31-34 | The lease is held at every instant until the handler ends if and only if each renewal due by then is delayed by at most ack_threshold and the end comes less than ack_wait after the last one |
| Lease.LeaseNeverExpires | src/udm_transformer/controller.py:38-51 | Delays below ack_threshold never let the lease expire, for a handler of any duration |
| Subscriber.CopiesAreHarmless | docs/queue_configuration.md:37-46 | Folding a log and folding it without its adjacent copies give the same |
| Subscriber.InSyncExactlyWhen | src/server/core/dispatcher/service/dispatcher.py:66-72 | A subscriber has its part of the directory after every event if and only if no event about an object it holds goes to a topic it has not subscribed to |
| Subscriber.TypeChangeLeavesStaleObject | src/udm_transformer/service/udm.py:83 | Two events after which the subscriber's copy is wrong |
| Subscriber.SnapshotSettlesExactlyWhen | docs/prefill.md:10-21 | Whatever types objects change to: a prefill followed by live events ends in the subscriber's part of the directory if and only if the prefill is right about every object no event is about, and every object whose last event goes elsewhere has left the copy by then |
| Subscriber.SnapshotConvergesExactlyWhen | docs/prefill.md:10-21 | If objects keep their types: if and only if the prefill is right about every object that no event for the subscriber is about |
| Subscriber.SnapshotWhileEventsArrive | docs/prefill.md:10-21 | A prefill whose objects are read at different times while events arrive is good enough, except that it may be wrong about objects some event is about |
| Snapshot.PrefillHoldsWhatMatches | src/server/core/prefill/service/udm_prefill.py:129-181 | Folding a prefill gives exactly the objects whose type some topic pattern matches |
| Snapshot.PrefillIsThePartExactlyWhen | src/server/core/prefill/service/udm_prefill.py:27-30 | Prefill and dispatcher agree on a subscription's objects if and only if the patterns match the literal topics and nothing else among their types |
| Snapshot.PatternTopicLeavesStaleObject | src/server/core/prefill/service/udm_prefill.py:27-30 | A pattern that matches a type it is not equal to: the prefill delivers an object that no live event ever updates |
| MovingFill.FillShowsWhatStays | src/server/core/prefill/service/udm_prefill.py:109-181 | A fill whose types, listings and objects are each read after another number of events is right about every object that stays in the subscriber's part, or out of it, all the while |
| MovingFill.FillReadsAlong | src/server/core/prefill/service/udm_prefill.py:109-181 | If objects keep their types, such a fill shows every object as it was at some point, or an event is about it: with objects created, deleted or moved between listing and fetch, and overlapping patterns |
| MovingFill.FillPublishesCreations | src/server/core/prefill/service/udm_prefill.py:164-181 | Whatever a fill finds, each message it publishes is a creation of the udm realm under a type that was asked for, with an object found behind a URL that was listed under that type |
| MovingFill.FillPublishesEvents | src/server/core/prefill/service/udm_prefill.py:164-181 | If URLs name types, such a message is formed like the live event of a creation |
| MovingFill.TopicsCover | src/server/core/prefill/service/udm_prefill.py:115-181 | A fill publishes every object of a matching type that all its reads find unchanged |
| EndToEnd.ReportedFillReadsAlong | src/server/core/prefill/service/udm_prefill.py:105-127 | The fill on the prefill subject when done is reported is such a one, after any attempts and crashes |
| EndToEnd.ConsumerHoldsItsPartExactlyWhen | docs/about.md:3-7 | With all queues empty, what a consumer has built from the messages it was handed is its subscription's part of the LDAP directory if and only if every object whose last event goes to another topic has left its copy by then; the prefill read a directory that was changing, other subscriptions came and went, and every component failed and repeated as it liked |
| EndToEnd.ReportedFillStartsWell | src/server/core/prefill/service/udm_prefill.py:105-127 | The fill reported done is right about every object no later event is about |
| EndToEnd.ConsumerHoldsItsPart | docs/about.md:3-7 | If objects keep their types, the consumer holds exactly its subscription's part of the LDAP directory |
| EndToEnd.ConsumerConverges | docs/about.md:3-7 | The same with or without prefill, for any prefill that `SnapshotWhileEventsArrive` allows |
| EndToEnd.CallbacksSeeTheOrder | src/univention/provisioning/consumer/api.py:169-204 | For all acknowledgement failures every callback sees a prefix of prefill followed by live messages, and only messages handed out are acknowledged |

## Left out

- GateRuns.PrefillBeforeLive: assumes that a fetch answers None only on an empty subject;
  `NoneKeepsOrderExactlyWhen` says what one other None does.
- GateRuns.OrderHoldsExactlyWhen: its condition speaks of what has been handed out so far, which no component can see;
  the condition of `NoneKeepsOrderExactlyWhen` is about the queue at the moment of the answer.
- GateDrain.EverythingCanBeHandedExactlyWhen: says what can still happen, not that somebody makes it happen; nothing
  here assumes that a process or the consumer goes on asking.
- Convergence.CompletedDeliveryConvergesExactlyWhen: speaks of one delivery, because it is about any state of the
  transformer; `Untyped.ConvergesExactlyWhen` covers every run.
- RegistryRuns.StaleStatusWriteKeepsCouplingExactlyWhen: speaks of names only; `StaleStatusWriteExactlyWhen` covers the
  parameters.
- EndToEnd.ConsumerHoldsItsPart: assumes that an entry keeps its object type; `ConsumerHoldsItsPartExactlyWhen` does not.
  Both assume that the acknowledgement after status done lands and that None means an empty prefill subject;
  `PrefillIsWholeExactlyWhen` and `NoneKeepsOrderExactlyWhen` say exactly what happens otherwise.
- EndToEnd.ConsumerConverges: takes the quality of the prefill as a hypothesis, because it also covers subscriptions
  without one; `ReportedFillReadsAlong` and `ReportedFillStartsWell` prove it of the worker.
- FanOut.DispatchEvents: streams are created and deleted between two deliveries; a deletion between two sends of one
  delivery has the effect of one before or after it.
- PrefillRetry.RetryRefinesCleanRun: fixes the directory, because a prefix of one clean run has no meaning otherwise;
  `LastFillWins` and `MovingFill` let it change between any two calls.
- PrefillQueue.EveryRequestIsServed: fixes the directory for the same reason; `ServesLikeDeliveries` carries
  `LastFillWins` over to the queue.
- MessageService.PrefillIsFetchedExactlyWhen: time is the number of reads that begin before the deadline.
- RegistryRecords.RegistrationHolds: the operations after the registration complete; cut-off and overlapping ones are
  the subject of `RegistryRuns`.
- Lease.LeaseNeverExpires: does not distinguish a renewal already written to the connection from one that has reached
  the queue; one that is under way when the handler ends is cancelled.
- NATS itself: how a stream stores, delivers and times out messages, its clustering, and that both subjects of a
  subscription share one durable consumer (`nats_adapter.py:252-264`).
- The revision argument of `put_value`: no caller here passes one.
- The `pop` argument of `get_next_message`, which acknowledges without deleting; the consumer does not use it.
- A response of the API that is lost on its way to the consumer; what the handler receives is taken to be what was
  handed out.
- The deletion of a subscription while a run of `Gate` is about it.
- The difference between `{}` and None as results of `ldap_to_udm`, and the logging that follows it.
- The older lease manager the dispatcher uses (`server/utils/old_message_ack_manager.py`).
- FastAPI routes other than the create request, settings, logging, correlation ids, JSON encoding, timestamps, UDM
  module loading, bcrypt, and the regular-expression engine.
