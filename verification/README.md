# Watchkeepers core: a verified model

The project models the messaging and decision spine of Watchkeepers and the algorithmic cores beside it, and proves
what they promise.  `dafny verify dfyconfig.toml` checks everything.

* **Event bus** (`BusModel`, `BusSafety`, `BusDelivery`, `BusTheorems`, `BusShutdown`, `BusTermination`, `BusOwners`,
  `BusHistory`, `BusFairness`, `BusLateSubscribe`, `BusAnswers`, `BusRuntime`, with `Sums` and `FairRuns`).  Publishers, subscribers, one
  worker per topic and one closer as a step relation at the granularity of locks, channel operations, WaitGroups and
  atomic loads.  Any number of calls may be in flight; handlers may call the bus themselves; a handler may be blocked
  publishing to its own full topic.  One inductive invariant gives shutdown safety, a second one conservation and
  delivery, a third one progress; `BusAnswers` says what each answer of Publish and Subscribe tells its caller.
  `BusRuntime.EventBus` holds the program's fields; each of its methods is one goroutine step, is proved equal to the
  step relation, and states what a reachable state guarantees it: that it cannot panic, for instance.
* **Approval decisions** (`ProposalStore`, `DecisionProtocol`, `DecisionAnswers`, `ApprovalHandlers`).  Webhook deliveries and button
  clicks race on proposals: claim, side effects, publish, roll back.  The handlers are also written as they are, as one
  uninterrupted pass, and proved equal to the steps of one attempt.  Every reply is tied to what the surroundings had
  answered by then, in every interleaving.
* **Audit bridge** (`AuditBridge`, `AuditTheorems`, `AuditOnce`, `AuditRows`, `AuditSubscriber`) on the bus, and **end to end** (`EndToEnd`) with
  the decisions: an attempt's Publish is a call on the bus and its result decides between landing and rollback.
  `AuditRows` holds the bridge's table against the names that the publishing packages use.
* **Capability broker** (`CapabilityBroker`, `BrokerTheorems`, `BrokerLifetime`, `BrokerRuntime`): an expiring token table with lazy
  deletion, a reaper and Close, linearizable to a table that never cleans up.  The clock is assumed monotone and the
  drawn tokens fresh.
* **Dry-run executor** (`DryRun`, `DryRunResults`, `DryRunExecutor`): for every answer of the forwarder, of the context, of the scope
  resolver and of the publisher.
* **Coordinator**: `Pagination` (three capped loops against any server), `OverdueQuery` (printing and reading back),
  `Briefing` and `BriefingLayout` (escaping, its length bound, the layout, and the nudge handler).
* **JSON-RPC harness**: `JsonRpc` (envelopes, dispatch), `RpcClient` (pending requests), `Harness` (the read loop).

State that no step reads (`enqueued`, `dispatched`, `snaps`, `delivered`, `fault` on the bus; `published`; `history`;
`issued`, `settled`) is a log: it is there to state what happened.

Where the program and its own text disagree the model follows the program:

* core/pkg/eventbus/bus.go:227-234 promises that a subscription does not land on a dead topic with the worker already
  gone, and core/pkg/eventbus/bus.go:250-253 that Close cannot snapshot and close the topic's channel while Subscribe
  holds `ts.mu`.  Subscribe gives up `b.mu` before it installs its handler and Close never takes `ts.mu`, so neither holds:
  `BusLateSubscribe.LandsOnDeadTopic` gives the run.  `SilentIff` says for every fresh registration exactly when it can
  never be given an event, and that this is never so before Close has taken `b.mu`; `QueuedAndLaterAreGiven` and
  `GivenWhenClosed` say what a registration is given.
* core/pkg/coordinator/nudge_reviewer.go:58-60 says that the cap on a nudge's text holds after escaping.  It is checked
  before: `Briefing.CapHoldsAfterEscapingIff` gives the exact condition.
* harness/src/types.ts:23-29 and harness/src/dispatcher.ts:5-6 say that a request with a null id gets no response.  It
  gets one; only an envelope without an `id` member gets none.
* A success reply to a duplicate approval does not mean that an event landed: `ReplaySuccessIsNotALanding` gives the run.
* RpcClient's ids are unique only for the first 2^53 requests (`IdsAreUniqueIff`), and its books balance exactly in the
  runs in which no request meets an id still pending (`BalancedIff`, with `OneRequestTooMany` as the run that shows it).

## Model

| member | source | states |
|---|---|---|
| BusSafety.StepKeepsSafe | core/pkg/eventbus/bus.go:136-423 | every step of every goroutine keeps the lock, WaitGroup, topic-map and channel invariant |
| BusTheorems.NoFaultEver | core/pkg/eventbus/bus.go:312-361 | in every interleaving: no send on a closed channel, no double close, no negative WaitGroup, no registration once the drain wait has begun |
| BusTheorems.TopicsFrozen | core/pkg/eventbus/bus.go:141-154 | once `closed` is set no step adds a topic or a channel |
| BusTheorems.SnapshotIsComplete | core/pkg/eventbus/bus.go:391-414 | the channels Close collected are all there are; those still to close are exactly the open ones |
| BusTheorems.CloseReturnedMeansDrained | core/pkg/eventbus/bus.go:401-420 | when Close returns: channels closed and empty, workers gone, no publish in flight, dispatched equals enqueued, every handler call made |
| BusDelivery.StepKeepsGood | core/pkg/eventbus/bus.go:177-362 | every step keeps the relation between queues, dispatches, snapshots, handler calls, registrations and landed publishes |
| BusDelivery.TurnKeepsTopicLog | core/pkg/eventbus/bus.go:177-191 | a worker's turn keeps dispatched + queue == enqueued, and the handler calls equal to the rounds of the dispatches |
| BusTheorems.DispatchedThenQueued | core/pkg/eventbus/bus.go:177-191 | in every reachable state a topic's dispatched events followed by its queue are its enqueued events |
| BusTheorems.PublishResult | core/pkg/eventbus/bus.go:302-362 | Publish returns nil exactly when its event stands in one log, at one place, under its topic; on an error, whichever it is, it stands in none |
| BusAnswers.PublishAnswers | core/pkg/eventbus/bus.go:302-361 | over every schedule: "invalid topic" is answered exactly for the empty topic, the context's error exactly to a call whose context was cancelled while it was blocked, "closed" only by a closed bus, and nothing but these and nil |
| BusAnswers.OnlyAFullQueueBlocks | core/pkg/eventbus/bus.go:344-361 | a publish blocks, or fails on its context, only after finding its queue full; otherwise an open bus answers nil |
| BusAnswers.SubscribeAnswers | core/pkg/eventbus/bus.go:215-264 | "invalid topic" exactly for the empty topic, "invalid handler" exactly for a nil handler with a topic, "closed" only by a closed bus; otherwise it succeeds |
| BusAnswers.CalledOnAClosedBus | core/pkg/eventbus/bus.go:215-237 | a Publish or Subscribe called once `closed` is set is turned away for the first reason there is, whatever runs beside it |
| BusAnswers.QueuesAreBounded | core/pkg/eventbus/bus.go:113-123 | in every run each topic's buffer has the size asked for, or 64, and is never exceeded |
| BusTheorems.OnlyPlace | core/pkg/eventbus/bus.go:344-361 | an envelope stands at one place in all logs together |
| BusTheorems.HandlerReceivesRun | core/pkg/eventbus/bus.go:180-189 | a handler receives a contiguous run of its topic's enqueue order, from its install to its removal; only the dispatch in progress may still owe it an event |
| BusTheorems.ReceivedRounds | core/pkg/eventbus/bus.go:179-189 | a registration in exactly the snapshots of an interval is given exactly the events of that interval |
| BusTheorems.DispatchOrder | core/pkg/eventbus/bus.go:187-189 | within one dispatch handlers run in strictly increasing registration id |
| BusTheorems.LogsOnlyGrowOverRuns | core/pkg/eventbus/bus.go:344-361 | no run removes or reorders an enqueued event |
| BusTheorems.PublisherOrder | core/pkg/eventbus/bus.go:302-362 | a publish that returned before another was called stands before it in the log of their topic |
| BusLateSubscribe.LandsOnDeadTopic | core/pkg/eventbus/bus.go:227-264 | a reachable state in which Close has returned and the worker has gone while Subscribe holds `ts.mu`; the step that Subscribe then takes installs its handler and succeeds |
| BusLateSubscribe.SilentIff | core/pkg/eventbus/bus.go:200-264 | a registration that no dispatch has seen is never given an event in any run exactly when Close has `b.mu` or has set `closed`, nothing waits for dispatch on its topic and no publish to it is undecided; so always on a dead topic, and never before Close takes `b.mu` |
| BusLateSubscribe.GivenWhenClosed | core/pkg/eventbus/bus.go:180-189 | when Close has returned a registration was given exactly the events between its install and its removal, so none exactly if no dispatch began in between |
| BusLateSubscribe.QueuedAndLaterAreGiven | core/pkg/eventbus/bus.go:200-211 | a Subscribe that has returned is given, if it stays until Close returns, every event whose dispatch had not begun then and every later one |
| BusDelivery.WithoutMembers | core/pkg/eventbus/bus.go:274-280 | unsubscribing takes away one registration and no other |
| BusDelivery.WithoutOrdered | core/pkg/eventbus/bus.go:274-280 | unsubscribing keeps the registration order |
| BusShutdown.StepKeepsWaits | core/pkg/eventbus/bus.go:187-189 | the bus call a running handler waits for was made by it and is under way or done |
| BusShutdown.CloseIsNeverStuck | core/pkg/eventbus/bus.go:381-420 | while Close is under way some goroutine inside the bus can move, even if a handler is blocked on its own full topic |
| BusTermination.StepLowersMeasure | core/pkg/eventbus/bus.go:354-361 | after `closed` is set every step but an arrival lowers a lexicographic measure of calls, queues, rounds and handler calls |
| BusTermination.FairRunCloses | core/pkg/eventbus/bus.go:399-420 | once `closed` is set, Close returns in every run in which goroutines inside the bus move again and again, whatever keeps arriving |
| BusFairness.CloseReturnsInFairRuns | core/pkg/eventbus/bus.go:380-423 | from any instant at which Close has been called, its own wait for `b.mu` included, Close returns in every run that is strongly fair to each goroutine |
| BusFairness.LockTaken | core/pkg/eventbus/bus.go:391-392 | Close gets `b.mu` in every such run, however many others take it in between and whatever topic lock its holder waits for |
| BusFairness.TopicFreed | core/pkg/eventbus/bus.go:249-254 | a Subscribe that waits for `ts.mu` with `b.mu` in its hand can take it at some later instant |
| BusFairness.FairToAllIsFair | core/pkg/eventbus/bus.go:399-420 | fairness to each goroutine gives recurring progress: an arrival never takes away what a goroutine inside can do |
| BusTermination.CloseCanAlwaysReturn | core/pkg/eventbus/bus.go:380-423 | from every reachable state with Close called the calls and workers there are can bring Close to its return, no further call arriving |
| FairRuns.Ends | core/pkg/eventbus/bus.go:415-420 | a rank that never rises and falls at every progress step reaches its end in a fair run |
| BusOwners.EntriesAreOwned | core/pkg/eventbus/bus.go:256-281 | every subscriber entry belongs to a Subscribe call that installed it and has not removed it |
| BusHistory.StepSuccessor | core/pkg/eventbus/bus.go:215-362 | a step moves at most one call, forward along its program |
| BusHistory.DeliveryHasOrigin | core/pkg/eventbus/bus.go:180-189 | every handler call was made for a registration that a Subscribe call installed on that topic |
| BusRuntime.EventBus.constructor | core/pkg/eventbus/bus.go:113-123 | a new bus; a buffer size that is not positive gives the default |
| BusRuntime.EventBus.Register | core/pkg/eventbus/bus.go:321-327 | the registration under `b.mu`; a registration that succeeds precedes the drain wait |
| BusRuntime.EventBus.GetOrCreateTopic | core/pkg/eventbus/bus.go:136-162 | found, refused because closed, or created; the topic it hands out is the one asked for and its channel is open |
| BusRuntime.EventBus.TrySend | core/pkg/eventbus/bus.go:344-348 | the non-blocking send: into the queue, or on to the blocking select; the channel is open, so it cannot panic |
| BusRuntime.EventBus.Leave | core/pkg/eventbus/bus.go:328-328 | the deferred Done and the return; the counter stays non-negative |
| BusRuntime.EventBus.LocateTopic | core/pkg/eventbus/bus.go:235-249 | Subscribe from the check to the topic of the name it was given |
| BusRuntime.EventBus.Install | core/pkg/eventbus/bus.go:256-264 | the copy-on-write append with an id above all others on the list |
| BusRuntime.EventBus.Unsubscribe | core/pkg/eventbus/bus.go:267-281 | the filtered copy: the own entry was there and is gone |
| BusRuntime.EventBus.Receive | core/pkg/eventbus/bus.go:178-179 | the next envelope, or the end of the worker; dispatched and queue still make up the enqueued events, and the worker count stays non-negative |
| BusRuntime.EventBus.Snapshot | core/pkg/eventbus/bus.go:185-186 | the subscriber list is captured once per dispatch |
| BusRuntime.EventBus.CallNext | core/pkg/eventbus/bus.go:187-189 | the next handler of the snapshot, or back to receiving |
| BusRuntime.EventBus.MarkClosed | core/pkg/eventbus/bus.go:391-397 | `closed` is set and the channels collected are those of all topics there are |
| BusRuntime.EventBus.CloseChannel | core/pkg/eventbus/bus.go:412-414 | one turn of the closing loop, on a channel that is not closed yet |
| ProposalStore.Mark | core/pkg/approval/proposalstore.go:165-185 | a first marking happens exactly for a live call, a real id, a valid kind and no prior decision, and stores the kind; the same kind again is a replay, the other a conflict with the prior one; nothing else is stored |
| ProposalStore.MarkUnmark | core/pkg/approval/proposalstore.go:165-205 | a rollback after a first claim restores the store; a stale or foreign rollback changes nothing; other proposals are untouched |
| ProposalStore.Store.MarkDecided | core/pkg/approval/proposalstore.go:165-185 | the marking on the live store |
| ProposalStore.Store.UnmarkDecided | core/pkg/approval/proposalstore.go:192-205 | the conditional delete on the live store |
| ProposalStore.RecordIsFoundUntilTheNext | core/pkg/approval/proposalstore.go:217-252 | once recorded, a proposal is found until the next Record of its id |
| ProposalStore.RecordsLeaveOthers | core/pkg/approval/proposalstore.go:217-252 | no list of records touches an id it does not mention |
| ProposalStore.Store.Lookup | core/pkg/approval/proposalstore.go:241-252 | the recorded proposal, not found, or cancelled |
| DecisionProtocol.StepKeepsValid | core/pkg/approval/webhook.go:448-594 | every step of every attempt keeps "a decision is stored for exactly one owner" |
| DecisionProtocol.AtMostOneTerminalEvent | core/pkg/approval/webhook.go:448-594 | over both routes, whatever fails, a proposal gets at most one terminal event, so never one of each kind |
| DecisionProtocol.DecisionStored | core/pkg/approval/proposalstore.go:165-205 | a decision is stored exactly when one attempt of its kind is in flight or one event of its kind is out, never both |
| DecisionProtocol.RollbackRemovesOwnClaim | core/pkg/approval/webhook.go:521-527 | a rollback finds and removes the caller's own claim, and nothing was published for it |
| DecisionProtocol.SuccessReplies | core/pkg/approval/webhook.go:475-538 | an owner answers success exactly when its publish succeeded; another success is a replay while someone owned the decision |
| DecisionProtocol.ReplaySuccessIsNotALanding | core/pkg/approval/webhook.go:475-484 | a run in which a replay is told success, the owner fails, and nothing is published or stored |
| ApprovalHandlers.ApprovalDesk.HandleApproved | core/pkg/approval/webhook.go:448-538 | the approve handler as written is the attempt's steps in order; what it leaves is given by the surroundings' answers: 408, 200 or 409 for a prior decision, 422 for an unmapped source, 500 for a failed id or publish, all without a trace; else the decision and its event, with 202 exactly if the sync failed |
| ApprovalHandlers.ApprovalDesk.HandleRejected | core/pkg/approval/webhook.go:544-594 | the reject handler as written is the attempt's steps in order; the same ends without a source: nothing it answers depends on the resolver or the sync |
| ApprovalHandlers.ApprovalDesk.DispatchClick | core/pkg/approval/callbacks.go:196-305 | the button handlers as written are the attempt's steps in order; the ends of a click: no id, cancelled, replay or conflict, failed publish, all without a trace, or the decision and its event |
| ApprovalHandlers.WebhookEnds | core/pkg/approval/webhook.go:448-594 | how a webhook delivery ends that nobody interrupts, by what its surroundings answer |
| ApprovalHandlers.ClickEnds | core/pkg/approval/callbacks.go:196-305 | how a click ends that nobody interrupts |
| DecisionAnswers.EveryAttemptStands | core/pkg/approval/webhook.go:448-594 | in every interleaving each attempt has asked each question of its route and kind at most once and in order, none of another's, and stands where the answers put it |
| DecisionAnswers.OnlyWebhookApprovalsTouchTheSource | core/pkg/approval/webhook.go:486-505 | only an approval by webhook ever resolves a source or syncs it |
| DecisionAnswers.LandedMeans | core/pkg/approval/webhook.go:486-538 | an approval by webhook lands only after its source resolved and its sync was tried, and is answered 202 exactly when that sync failed; nothing else is asked for a source; nothing lands without a live context, an id and a nil from Publish |
| DecisionAnswers.RefusalMeans | core/pkg/approval/webhook.go:449-530 | each refusal means one failure: 408 a dead context, 422 an unmapped source, 500 a failed id or publish, 200 and 409 a claim that another holds; the same for clicks |
| DecisionAnswers.ClaimReplies | core/pkg/approval/webhook.go:464-484 | a claim goes through exactly when nobody owns the proposal and no event about it is out; success is answered exactly when its own kind is held, a conflict exactly when the other is |
| ApprovalHandlers.ApprovalDesk.ClaimOrEnd | core/pkg/approval/webhook.go:449-484 | context check and claim, with the replies to replay and conflict |
| AuditBridge.ActKeepsInv | core/pkg/auditsubscriber/subscriber.go:105-179 | Start, its rollback, Stop and everyone else keep the bridge's books: each Subscribe call is held at its stage or is over |
| AuditTheorems.NoBridgeEntries | core/pkg/auditsubscriber/subscriber.go:105-141 | before a successful Start, after a failed one and after Stop no subscriber list holds a handler of the bridge |
| AuditTheorems.StopIsFinal | core/pkg/auditsubscriber/subscriber.go:161-179 | once Stop has been called no Start succeeds |
| AuditTheorems.RunningHasEachHandlerOnce | core/pkg/auditsubscriber/subscriber.go:115-139 | while the bridge runs each binding has one live handler on the whole bus, on its topic |
| AuditTheorems.BridgeLeavesOthers | core/pkg/auditsubscriber/subscriber.go:115-137 | installing and removing the bridge's handlers leaves everyone else's handlers and their order alone |
| AuditTheorems.BridgeRunsLeaveOthers | core/pkg/auditsubscriber/subscriber.go:105-179 | over any run, whatever the bridge and everyone else do in it, the handlers that are not the bridge's are exactly what everyone else's own installs and removals make of those that were there, in order |
| AuditTheorems.OrderStays | core/pkg/eventbus/bus.go:266-281 | two handlers on a list before and after any run stand in the same order |
| AuditTheorems.RowsOnlyFromOwnTopic | core/pkg/auditsubscriber/subscriber.go:115-116 | a binding's handler is never called on another topic |
| AuditTheorems.HandledAreTheEnqueued | core/pkg/auditsubscriber/subscriber.go:211-238 | a bridge started before the first publish was given a prefix of the enqueued events, and all of them when Close has returned |
| AuditTheorems.EveryEventIsAudited | core/pkg/auditsubscriber/subscriber.go:105-238 | started first and stopped after Close: the append attempts per topic are exactly the enqueued events, in order |
| AuditOnce.EntriesAreSingle | core/pkg/auditsubscriber/subscriber.go:115-137 | in any phase no subscriber list holds two handlers of one binding |
| AuditOnce.SnapshotsAreSingle | core/pkg/eventbus/bus.go:185-186 | nor does any snapshot of any dispatch |
| AuditOnce.HandledOnce | core/pkg/auditsubscriber/subscriber.go:211-238 | in every attainable state a binding's handler was given only enqueued events of its topic, each at most once |
| AuditTheorems.NothingAfterClose | core/pkg/eventbus/bus.go:401-420 | after Close has returned no event enters a queue and no handler runs |
| AuditTheorems.BindingsAreDistinct | core/pkg/auditsubscriber/topics.go:77-89 | no topic and no event type is bound twice |
| AuditRows.EveryEmissionIsBound | core/pkg/auditsubscriber/topics.go:78-90 | each published event has a binding with the topic, the Go type and the event type that its package and the keeper's log know it by |
| AuditRows.RowsMatchEvents | core/pkg/auditsubscriber/handlers.go:34-53 | the rows of a binding are, in order, one for each struct of its type, by value or pointer, each with that type's event type, the struct and its correlation id, and none for anything else |
| AuditRows.PointersAreDereferenced | core/pkg/auditsubscriber/handlers.go:39-44 | an event published through a pointer gives the same rows as the struct itself |
| AuditRows.EveryRowHasItsEvent | core/pkg/auditsubscriber/subscriber.go:211-238 | in every attainable state a row of any binding was made for an event enqueued on the topic where such events are published, and says what that event is |
| AuditRows.EveryPublicationIsAudited | core/pkg/auditsubscriber/subscriber.go:105-238 | started first and stopped after Close: the rows are one for each struct published on the topic, in order, each saying what was published |
| AuditSubscriber.Subscriber.Start | core/pkg/auditsubscriber/subscriber.go:105-141 | the loop with its rollback is a run of the model: it ends running, or with every handler gone, or refused without effect, or still waiting |
| AuditSubscriber.Subscriber.Stop | core/pkg/auditsubscriber/subscriber.go:161-179 | the loop over the callbacks is a run of the model that ends stopped |
| AuditSubscriber.Subscriber.RunCallbacks | core/pkg/auditsubscriber/subscriber.go:126-128 | the callbacks run one after the other, each awaited |
| EndToEnd.ActKeepsInv | core/pkg/approval/webhook.go:515-530 | an attempt lands exactly when its Publish on the bus returned nil |
| EndToEnd.EntryHasOwner | core/pkg/approval/webhook.go:521-521 | an event on a terminal topic belongs to the attempt that holds the claim, of the kind of that topic |
| EndToEnd.OneTerminalEventOnTheBus | core/pkg/approval/webhook.go:448-594 | over all topics at most one terminal event of a proposal ever enters a queue |
| EndToEnd.AtMostOneTerminalRow | core/pkg/auditsubscriber/topics.go:82-83 | in every attainable state, over all topics and bindings, whenever the bridge was started, rolled back or stopped, a proposal has at most one row in all whose event type is "tool_approved" or "tool_rejected" |
| EndToEnd.RowMeansDecision | core/pkg/approval/webhook.go:464-521 | a row of any binding on any topic whose event type is "tool_approved" or "tool_rejected" is about a proposal whose stored decision is Approved or Rejected accordingly, and holds the struct of that kind |
| EndToEnd.LandedDecisionIsAudited | core/pkg/auditsubscriber/subscriber.go:211-238 | if the bridge ran before the first decision was published and when Close returned, then after Stop and anything else a decision whose publish succeeded has exactly one row with the event type of its kind and none with the other's, and that row holds the struct its attempt published |
| CapabilityBroker.StepKeepsInv | core/pkg/capability/broker.go:189-532 | every step keeps the map inside the never-cleaned table and, until the wipe, complete for live tokens |
| CapabilityBroker.LookupIsAsk | core/pkg/capability/broker.go:249-284 | a lookup answers what the never-cleaned table answers, except "no such token" for an expired one that is gone |
| BrokerTheorems.ValidateSucceedsIff | core/pkg/capability/broker.go:241-291 | until the wipe a lookup succeeds exactly for an issued, unrevoked, unexpired token with the right scope (and organization) |
| BrokerTheorems.ValidationIsLinearized | core/pkg/capability/broker.go:241-449 | every validation returned the table's answer at one moment while it ran |
| BrokerTheorems.OneEventPerCall | core/pkg/capability/broker.go:189-471 | a call of any kind that took effect did so at exactly one moment, with the answer it returned and right for the table of that moment; any other call at none; the expiry it stored is the subject of `BrokerLifetime` |
| BrokerLifetime.TokensLiveForTheirTtl | core/pkg/capability/broker.go:189-449 | a token of a call that began at t0 and was inserted at t1 is granted before t0 + ttl, until revoked or wiped, to exactly its scope and organization, and at no time from t1 + ttl on |
| BrokerLifetime.IssueAlone | core/pkg/capability/broker.go:189-221 | an issuing call that nobody interrupts stores scope, organization and now + ttl under the token drawn and returns it; when the generator fails, so does it |
| BrokerLifetime.RefusalsAreRight | core/pkg/capability/broker.go:189-471 | whatever runs beside it, a call is refused for the first of its own checks that fails, and as "closed" only by a closed broker |
| BrokerLifetime.TableAnswers | core/pkg/capability/broker.go:249-284 | when the table answers unknown, expired, wrong scope, wrong organization or valid |
| BrokerLifetime.SweepRemovesWhatHadExpired | core/pkg/capability/broker.go:518-532 | after a turn of the reaper, whatever ran between its clock reading and its lock, the map holds exactly those of its tokens that had not expired at the reading |
| BrokerTheorems.HistoryRespectsRealTime | core/pkg/capability/broker.go:189-471 | a call that took effect before another began stands before it |
| BrokerTheorems.DeadStaysDead | core/pkg/capability/broker.go:255-271 | a token found expired or revoked is never validated later |
| BrokerTheorems.RevokedStaysRevoked | core/pkg/capability/broker.go:459-471 | after a Revoke no later validation succeeds |
| BrokerTheorems.CleanupKeepsLiveTokens | core/pkg/capability/broker.go:518-532 | neither the reaper with its old clock reading nor lazy deletion removes a live token |
| BrokerTheorems.WipeIsFinal | core/pkg/capability/broker.go:482-495 | once wiped the map stays empty whatever calls were past their first check |
| BrokerTheorems.OrganizationsAreSeparate | core/pkg/capability/broker.go:383-449 | ValidateForOrg succeeds only on tokens IssueForOrg minted for that organization and scope |
| BrokerRuntime.TokenBroker.CheckArguments | core/pkg/capability/broker.go:190-198 | the argument checks of Issue and IssueForOrg in their order |
| BrokerRuntime.TokenBroker.InsertToken | core/pkg/capability/broker.go:206-212 | the insert of a token the map does not hold, refused if `closed` was set meanwhile |
| BrokerRuntime.TokenBroker.LookUp | core/pkg/capability/broker.go:249-284 | the lookup and the comparisons; until the wipe it succeeds exactly when the never-cleaned table grants it |
| BrokerRuntime.TokenBroker.DeleteIfExpired | core/pkg/capability/broker.go:259-267 | the lazy deletion with its second look loses no live token |
| BrokerRuntime.TokenBroker.DeleteToken | core/pkg/capability/broker.go:463-465 | Revoke under the lock |
| BrokerRuntime.TokenBroker.PruneExpired | core/pkg/capability/broker.go:518-532 | the sweep removes exactly what had expired at the clock reading, and so no token that is live now |
| BrokerRuntime.TokenBroker.Wipe | core/pkg/capability/broker.go:487-491 | Close empties the map |
| DryRun.RewriteForcesScope | core/pkg/approval/dryrun.go:717-738 | a rewrite forces channel or project and changes nothing else; it fails exactly at 16 arguments without the forced one |
| DryRun.StopIsFirst | core/pkg/approval/dryrun.go:593-650 | a scoped run stops at the first cancel, overflow or failed forward |
| DryRun.ForwardsAreARewrittenPrefix | core/pkg/approval/dryrun.go:580-662 | the Forward calls are the rewrites of a prefix; none follows a failure or an observed cancel |
| DryRun.OnlyScopedForwards | core/pkg/approval/dryrun.go:515-555 | ghost and none modes never forward |
| DryRun.PublishesOnceIff | core/pkg/approval/dryrun.go:549-694 | one publish attempt exactly when a forward succeeded or the run completed uncancelled, else none |
| DryRun.EventAccounts | core/pkg/approval/events.go:358-372 | the per-kind counts add up to the invocation count, which is the successes plus one if a forward failed |
| DryRun.ValidInvocations | core/pkg/approval/dryrun.go:421-425 | a valid request has only valid invocations |
| DryRunResults.RequestComplaint | core/pkg/approval/dryrun.go:405-426 | a request passes exactly when it is within every limit; otherwise the error is that of the first thing wrong with it, for invocations that of the first bad one |
| DryRunResults.SpacesAre | core/pkg/approval/dryrun.go:174-174 | a blank name consists of the white space of the Unicode standard |
| DryRunResults.BytesAreUtf8 | core/pkg/approval/dryrun.go:177-190 | the length that is limited is that of the UTF-8 form |
| DryRunResults.NoErrorMeans | core/pkg/approval/dryrun.go:507-694 | there is no error exactly when the run came to its one full publish and that worked; "publish failed" alone exactly when it came there and it did not |
| DryRunResults.StoppedMeans | core/pkg/approval/dryrun.go:580-694 | otherwise the error is the first stop: the context, an overflow, or the failed forward with its index and cause, joined with "publish failed" exactly when a partial publish failed |
| DryRunResults.NeverBegunMeans | core/pkg/approval/dryrun.go:507-600 | the error of every run that never began: request, context, mode, scope |
| DryRunResults.TraceIsReturnedIff | core/pkg/approval/dryrun.go:580-765 | a trace is returned exactly after a publish that worked, or from a stop after a forward was tried; how many outcomes it has |
| DryRunResults.TraceHolds | core/pkg/approval/dryrun.go:536-662 | a trace names its request; its outcomes are those of the first invocations, ghosted or rewritten by the scope, each with its disposition and its forward error |
| DryRunResults.EventCountsKinds | core/pkg/approval/events.go:358-372 | the event counts, kind by kind, the first invocations of the request, as many as its count says |
| DryRunExecutor.Execution.Execute | core/pkg/approval/dryrun.go:507-527 | everything Execute leaves behind is what the specification says, whose error and trace `DryRunResults` characterizes |
| DryRunExecutor.Execution.ExecuteGhost | core/pkg/approval/dryrun.go:536-555 | the ghost loop, its last context check and its publish |
| DryRunExecutor.Execution.ExecuteScoped | core/pkg/approval/dryrun.go:580-662 | the scoped loop with all its exits, equal to the specification of which `DryRunResults` says what each exit returns |
| DryRunExecutor.Execution.PublishPartial | core/pkg/approval/dryrun.go:673-694 | the partial publish returns the trace with its cause, joined with its own failure; `DryRunResults.StoppedMeans` says so without naming it |
| DryRunExecutor.Execution.PublishTrace | core/pkg/approval/dryrun.go:747-765 | the full publish returns the trace only if it worked |
| DryRunExecutor.Execution.NewEvent | core/pkg/approval/events.go:358-372 | the counting loop counts each kind |
| DryRunExecutor.Execution.RewriteForScope | core/pkg/approval/dryrun.go:717-738 | the copying loop and the forced argument |
| DryRunExecutor.Execution.Clone | core/pkg/approval/dryrun.go:786-792 | the copy equals the original |
| Pagination.HistoryFlag | core/pkg/coordinator/fetch_watch_orders.go:368-420 | "not truncated" exactly when the last page said neither "more" nor named a cursor and every message fetched was returned; a scan short of both caps is truncated only by a page that contradicts itself |
| Pagination.SearchFlag | core/pkg/coordinator/find_overdue_tickets.go:511-553 | the same for issues, in Jira's two fields |
| Pagination.PullsFlag | core/pkg/coordinator/find_stale_prs.go:456-498 | what is returned is a prefix of the stale pull requests fetched; "not truncated" means all of them, from a last page; "truncated" means a cap was reached |
| Pagination.HistoryCalls | core/pkg/coordinator/fetch_watch_orders.go:368-420 | the first call has no cursor, each later one that of the page before it, which had said "more"; none after a cancel; an error is that of the next call |
| Pagination.SearchCalls | core/pkg/coordinator/find_overdue_tickets.go:511-553 | the same with Jira's page tokens |
| Pagination.PullsCalls | core/pkg/coordinator/find_stale_prs.go:456-498 | page 1 first, then the page that the one before it named; none after a cancel |
| Pagination.ReturnedAreTheStale | core/pkg/coordinator/find_stale_prs.go:456-523 | what is returned was last updated before the threshold and awaits the reviewer; if not truncated, all such pull requests fetched are returned |
| Pagination.PaginateHistory | core/pkg/coordinator/fetch_watch_orders.go:368-420 | an honest scan of the pages a cursor chain fetched, or the error of the next call |
| Pagination.PaginateOverdue | core/pkg/coordinator/find_overdue_tickets.go:511-553 | the same for Jira's signals |
| Pagination.PaginateStalePRs | core/pkg/coordinator/find_stale_prs.go:456-498 | the same for GitHub's page numbers, with the filter |
| Pagination.MatchesStaleFilter | core/pkg/coordinator/find_stale_prs.go:510-523 | a known update time before the threshold and the reviewer among those requested |
| OverdueQuery.SequentialReplacementsEscape | core/pkg/coordinator/find_overdue_tickets.go:482-486 | the two replacements in their order are one escape per character: one backslash before each backslash and quote |
| OverdueQuery.ComposeOverdueJQL | core/pkg/coordinator/find_overdue_tickets.go:464-476 | the loop and the format give the query |
| OverdueQuery.QuotedRoundTrip | core/pkg/coordinator/find_overdue_tickets.go:482-486 | a reader of quoted literals recovers any string |
| OverdueQuery.QueryRoundTrip | core/pkg/coordinator/find_overdue_tickets.go:464-476 | for arbitrary strings and ages a reader that expects the query's keywords recovers every part of it |
| OverdueQuery.CompositionIsInjective | core/pkg/coordinator/find_overdue_tickets.go:464-476 | equal queries have equal parts |
| Briefing.EscapeRoundTrip | core/pkg/coordinator/briefing_formatter.go:105-123 | escaping is invertible on every rune sequence, also one with zero-width spaces in it |
| Briefing.EscapeLength | core/pkg/coordinator/briefing_formatter.go:105-123 | two runes more per control character |
| Briefing.EveryControlIsWrapped | core/pkg/coordinator/briefing_formatter.go:112-121 | no control character stands outside its sandwich |
| BriefingLayout.EscapeIsRuneByRune | core/pkg/coordinator/briefing_formatter.go:105-123 | a text is escaped piece by piece, and exactly the six mrkdwn controls are put between zero-width spaces |
| BriefingLayout.EscapeTwice | core/pkg/coordinator/briefing_formatter.go:105-123 | escaping twice is escaping once exactly when there is nothing to escape |
| Briefing.EscapeMrkdwn | core/pkg/coordinator/briefing_formatter.go:105-123 | the fast path and the loop give the same |
| Briefing.RuneLen | core/pkg/coordinator/briefing_formatter.go:129-135 | the counter loop counts runes |
| Briefing.FormatBriefing | core/pkg/coordinator/briefing_formatter.go:52-78 | title, headings and bullets with their separators, and the length |
| BriefingLayout.BriefingIsLaidOut | core/pkg/coordinator/briefing_formatter.go:52-78 | what the formatter writes is the layout: bold title, sections after empty lines, bold headings, one line per bullet; nothing before the first text |
| Briefing.NudgeLength | core/pkg/coordinator/nudge_reviewer.go:141-141 | the exact length of a rendered nudge |
| Briefing.AcceptedNudgesAreBounded | core/pkg/coordinator/nudge_reviewer.go:183-219 | every accepted nudge renders to at most 6606 runes |
| Briefing.TheBoundIsTight | core/pkg/coordinator/nudge_reviewer.go:73-86 | the bound is attained |
| Briefing.CapHoldsAfterEscapingIff | core/pkg/coordinator/nudge_reviewer.go:58-60 | the cap on the text holds after escaping exactly when its control characters leave room, and an accepted text breaks it |
| BriefingLayout.NudgeArguments | core/pkg/coordinator/nudge_reviewer.go:160-219 | which reviewer, text and title are accepted, and the first refusal of each that is not |
| Briefing.NudgeReviewer | core/pkg/coordinator/nudge_reviewer.go:117-158 | a message goes out exactly on a live context with all three arguments accepted, to the reviewer named; otherwise the first refusal is answered; the messenger's stamp or error is passed on |
| JsonRpc.ResponseRoundTrip | harness/src/jsonrpc.ts:184-361 | a printed response parses to itself and is classified as a response |
| JsonRpc.RequestRoundTrip | harness/src/jsonrpc.ts:82-173 | a printed request parses to itself and is not taken for a response |
| JsonRpc.SilentExactlyForNotifications | harness/src/dispatcher.ts:25-59 | no line is written exactly for well-formed notifications |
| JsonRpc.AnswersAreRight | harness/src/dispatcher.ts:25-59 | every line written carries the recovered id, parses back, and says what the specification asks for, with its literal codes |
| JsonRpc.ResponsesAreParsed | harness/src/jsonrpc.ts:249-361 | a line parses as a response exactly when it is one, and then to what it says; otherwise the error's code and recovered id are right |
| JsonRpc.LinesGoWhereTheyBelong | harness/src/index.ts:166-176 | no request is taken for a response, and a response is taken for one exactly unless it names a method |
| RpcClient.RunKeepsInv | harness/src/jsonrpc.ts:430-520 | every run keeps the pending table and the log of settlements consistent |
| RpcClient.SettledAtMostOnce | harness/src/jsonrpc.ts:478-497 | a promise is settled at most once |
| RpcClient.SettledByOwnResponse | harness/src/jsonrpc.ts:452-497 | only by its failed write or by a response with its id; a success resolves it with the result, a failure rejects it with the error |
| RpcClient.IdsAreUniqueIff | harness/src/jsonrpc.ts:453-453 | ids are unique exactly up to 2^53 requests |
| RpcClient.IssuedIsPendingPlusSettled | harness/src/jsonrpc.ts:452-520 | up to 2^53 requests, issued equals pending plus settled |
| RpcClient.BalanceKeptIff | harness/src/jsonrpc.ts:452-497 | a step upsets the balance exactly when it is a request whose id is still pending |
| RpcClient.IssuedIsPendingSettledOrLost | harness/src/jsonrpc.ts:452-520 | in every run, however long, issued equals pending plus settled plus the promises whose entries were overwritten |
| RpcClient.BalancedIff | harness/src/jsonrpc.ts:452-497 | a run is in balance exactly when none of its requests met an id still pending; nothing later makes up for one |
| RpcClient.OneRequestTooMany | harness/src/jsonrpc.ts:453-453 | the run with 2^53 + 1 requests in which an id repeats and a promise is lost |
| RpcClient.PendingRequests.Send | harness/src/jsonrpc.ts:452-471 | the entry is stored, and taken out again if the writer throws |
| RpcClient.PendingRequests.HandleResponse | harness/src/jsonrpc.ts:478-497 | a known id settles its promise, an unknown one is dropped |
| RpcClient.PendingRequests.HandleResponseLine | harness/src/jsonrpc.ts:505-511 | a line that does not parse settles nothing |
| Harness.ReadLoop | harness/src/index.ts:117-152 | the loop answers every line before it finds the shutdown flag raised, by a signal or by the handler of a request or notification, and no other |
| Harness.EchoIsSilent | harness/src/index.ts:128-176 | every line the loop writes, fed back into a loop, writes nothing |
| Harness.RequestIsSettledByItsAnswer | harness/src/index.ts:139-147 | a request that one side prints is answered by the other with what settles exactly that request, as its handler ended: resolved with what it returned, rejected with what it threw, or as an unknown method |

## Left out

- Real time, RWMutex writer preference and the order of Go map iteration: steps are interleaved arbitrarily. Only the theorem that Close returns assumes something of the scheduler and the mutexes, strong fairness to each goroutine.
- The wrap-around of the 64-bit subscription counter: `nextSubID` is unbounded.
- Second and later callers of Close (closeOnce) on the bus and the broker, and repeated calls of one unsubscribe callback (once.Do): they wait for or skip the body modelled here.
- Panics in handlers, which the bus forbids; a handler that calls Close; a handler that never returns although its own bus calls do.
- A context that is cancelled before the blocking select: cancellation is one of its possible picks at any time.
- HTTP, HMAC signatures, request decoding, proposal fetching, the Slack card and the other two buttons of the approval callbacks.
- Publishers on the two terminal topics other than the decision handlers: the end-to-end theorems assume that there are none. In the repository core/pkg/approval/callbacks.go:267, :299 and core/pkg/approval/webhook.go:521, :587 are the only ones.
- UUIDs and tokens are uninterpreted; drawn tokens and correlation ids are assumed fresh, and the broker's clock monotone.
- Cloning of stored proposals: values cannot be aliased in the model, so that a caller cannot mutate a stored proposal is not a statement about it.
- Loggers, redaction and error texts beyond the sentinel.
- The audit writer's answers: an append attempt is modelled, not its failure, which the program only logs.
- ReadLoop: does not model lines that handlers write themselves while they run (their own requests and streaming notifications), nor that such handlers may wait for a line that the loop has not read yet; only safety is claimed.
- PaginateStalePRs: case folding of logins is a parameter, because its meaning lies in the Unicode tables.
- FormatBriefing: strings are rune sequences; bytes that are not valid UTF-8 are not modelled.
- JSON text and the numbers it can denote beyond finite ones; a handler that returns undefined; the JSON parser's messages are given with the line.
- Send: a writer that calls back into the client.
- The page caps and item caps of the pagination loops are parameters (200 and 10 in the program), with an item cap of at least 1.
- Argument readers, projections, cron, configuration, registries, GitHub, Jira and Slack clients, storage and the CLI: plumbing around unseen libraries, or single checks.
