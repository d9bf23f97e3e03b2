# OpenHands: a verified model of its stateful cores

Dafny models of the parts of OpenHands whose correctness depends on interleavings, crashes and indices,
with proofs over every run or every input. `dafny verify dfyconfig.toml` checks all of it.

* **Conversation leases** (`ClusterLease`, `ClusterTiming`, `ClusterTightness`, `ClusterSharing`,
  `ClusterRecovery`, `ClusterLaws`, `ClusterManager`): server nodes share conversations through Redis keys
  that expire after 15 s. Claims, registrations, refresh rounds, closes, crashes and commands that land late
  are separate steps of a state machine; `ClusterLaws` says what each does to leases and holders, and
  `ClusterManager` holds the object whose methods perform them.
* **Event log and page cache** (`EventLog`, `EventLogTheorems`, `EventStream`, `EventStore`,
  `EventStoreTheorems`): ids are assigned under a lock, files and pages are written outside it.
* **Remote event store** (`NestedEventStore`, `NestedEventStoreTheorems`): pagination over the `/events` route of the server.
* **Delivery to subscribers** (`Delivery`, `DeliveryTheorems`): one queue thread, one single-worker pool per
  callback; registering a callback and setting its pool, and testing for one and looking its pool up, are
  separate steps.
* **Agent controller** (`Controller`, `ControllerTheorems`, `ControllerLaws`, `ControllerRecovery`,
  `AgentController`): agent state, the one pending action, confirmation, reset and the events it emits.
  `AgentController` is the object; `Controller` the functions its methods are proved against;
  `ControllerLaws` says what events, results, answers and steps do to the agent, from the events and the
  configuration alone; `ControllerRecovery` joins the stuck detector to it.
* **Stuck detector and recovery** (`StuckPatterns`, `StuckTheorems`, `StuckLaws`, `StuckDetector`): `StuckLaws`
  says when exactly the agent is reported stuck.
* **Smaller cores**: `Metrics` and `MetricsLedger`, `Replay`, `Pairs`, `Evaluation`, `AuthTokens` and
  `AuthTokenExpiry`. `Util` holds functions on sequences.

Names: a step of a state machine is a `Label`, a run is a sequence of labels, `PossibleRun` says that each
label is enabled where it occurs and `Final` is the state it leads to.

## What is assumed

* JSON encoding is injective and does not raise under the lock of the event stream.
* A claim, a pipeline and a DEL take effect in Redis at one instant. A pipeline or DEL that a node sent
  before it crashed, or whose reply was lost, may still take effect at any later time.
* Controller handlers run one at a time. A step of the agent, a control-flag failure and a verdict of the
  stuck detector are an arbitrary outcome, in `ControllerRecovery` one that the detector gives for the
  history of that moment; anybody may add events to the stream between handlers.
* The identity provider and the log-in hand out refresh tokens never seen before.
* An evaluation result carries the id of its instance; sampling with a fixed seed is a function and draws
  without replacement.

## Where the code and its documentation differ

The model follows the code.

* `stuck.py:405-417` describes a loop of condensations without other events between them; the code reports
  as soon as one adjacent pair occurs among the last ten (`ContextWindowFiresExactlyWhen`), other events
  between the rest or not (`SpreadCondensationsAreReportedExactlyWhen`).
* A detector comparison is not reflexive: four identical short edits are not a repeated pair
  (`FourCopiesAreReportedExactlyWhen`).
* `auth_token_store.py:83-87` promises one refresh per refresh token; one refresh lost to a rolled-back
  transaction is enough to break that, and nothing else does (`SpentOnceExactlyWithoutLoss`).
* `agent_controller.py:1276` promises truncation to before the loop. A recovery never clears the analysis,
  and the detector forgets it only when it has three events to look at (`AnalysisStaysExactlyWhen`), so a
  second recovery may cut a new user message that is part of no loop (`SecondRecoveryDropsANewMessage`); it
  cuts whatever was delivered since the last recovery, and nothing if and only if nothing was
  (`RecoveryCutsAllSinceTheLast`).
* `subscribe` and the removal of a callback may run while the queue thread hands out an event; three
  interleavings end the thread for all callbacks, and nothing else does (`EachRaceEndsTheThread`,
  `ThreadSurvivesExactlyWhen`).
* `shared.py:346-350` suggests running the evaluation again after a skipped error; the line written for it
  counts as finished, so the instance is not run again (`FailingIsRunAgainExactlyWhen`).
* The route's documentation gives 1 as its smallest limit; it accepts 0, with which the remote search ends
  only if nothing is stored to be searched (`SearchEndsExactlyWhen`).
* The `end_id` of the remote store is the name of an event rather than a bound
  (`MissingEndIsHarmlessExactlyWhen`).
* `diff` tells costs apart by timestamp, so two costs with one timestamp across the baseline break its
  round trip (`DiffRoundTrip`).

## Model

| member | source | states |
|---|---|---|
| ClusterLease.HolderHasOrigin | OpenHands/enterprise/server/clustered_conversation_manager.py:390-420 | whoever holds a key after a step held it before in the slot the step moved it from, or has just claimed it |
| ClusterLease.StepKeepsExclusion | OpenHands/enterprise/server/clustered_conversation_manager.py:398-405 | no step that leaves no held key to lapse gives a key a second holder or takes a held key out of Redis |
| ClusterLease.Exclusion | OpenHands/enterprise/server/clustered_conversation_manager.py:614-650 | in every safe run of any number of nodes, with stale refreshes, closes, failed starts and crashes interleaved, a key has at most one holder (starting, running, popped but not deleted, or a DEL still on its way) and a held key is live in Redis |
| ClusterTiming.TimelyTickIsSafe | OpenHands/enterprise/server/clustered_conversation_manager.py:44-48 | while every lease covers what its holder is doing and nobody is late, no passing of time lets a held key lapse |
| ClusterTiming.StepKeepsCover | OpenHands/enterprise/server/clustered_conversation_manager.py:456-484 | every step of a timely run keeps each lease long enough for its holder, across a snapshot that missed the key, immediate retries, pops and late deletes |
| ClusterTiming.TimelyRunIsSafe | OpenHands/enterprise/server/clustered_conversation_manager.py:422-484 | start + 5 + 2 x round + close < 15 makes every timely run safe |
| ClusterTiming.LeasesNeverLapse | OpenHands/enterprise/server/clustered_conversation_manager.py:422-484 | so from an empty cluster a timely run never lets a held key lapse and is exclusive in its every state |
| ClusterTightness.SlowStartLapses | OpenHands/enterprise/server/clustered_conversation_manager.py:398-405 | a start that takes as long as allowed, through any number of refresh rounds, ends in a lapse when the bounds do not fit |
| ClusterTightness.MissedRoundLapses | OpenHands/enterprise/server/clustered_conversation_manager.py:456-484 | so does registering just after the snapshot of a slow round |
| ClusterTightness.SlowCloseLapses | OpenHands/enterprise/server/clustered_conversation_manager.py:641-650 | and a close that takes as long as allowed, through any number of rounds |
| ClusterTightness.BoundsAreExact | OpenHands/enterprise/server/clustered_conversation_manager.py:44-48 | the bounds fit if and only if no timely run from an empty cluster ever lets a held key lapse |
| ClusterSharing.LapsedKeyIsShared | OpenHands/enterprise/server/clustered_conversation_manager.py:398-405 | once a held key has lapsed, a node that tries gets it too: some run reaches two holders |
| ClusterSharing.LapseLetsTwoHold | OpenHands/enterprise/server/clustered_conversation_manager.py:398-405 | any timely run that lets a key lapse extends to a timely run with two holders |
| ClusterSharing.ExclusionExactlyWhenBoundsFit | OpenHands/enterprise/server/clustered_conversation_manager.py:44-48 | the bounds fit if and only if no timely run from an empty cluster ever has two holders of one key |
| ClusterRecovery.OrphanStaysOrphan | OpenHands/enterprise/server/clustered_conversation_manager.py:456-484 | a key without a holder and with no refresh in flight keeps its expiry and gets no new refresh unless somebody claims it |
| ClusterRecovery.OrphanLivesUntilExpiry | OpenHands/enterprise/server/clustered_conversation_manager.py:486-515 | such a key is in Redis exactly until its expiry |
| ClusterRecovery.CrashedKeyIsGoneInTime | OpenHands/enterprise/server/clustered_conversation_manager.py:44-48 | in any run from an empty cluster it is gone 15 time units later |
| ClusterRecovery.HeldKeyHasNoWinner | OpenHands/enterprise/server/clustered_conversation_manager.py:398-405 | in a safe run from an exclusive state no claim of a key succeeds as long as the key keeps a holder |
| ClusterRecovery.OneRacerWins | OpenHands/enterprise/server/clustered_conversation_manager.py:745-749 | of all nodes racing to restart a lapsed conversation in a safe run exactly one claim succeeds, if there is one at all, as long as the winner keeps its hold |
| ClusterRecovery.OneRacerWinsInTime | OpenHands/enterprise/server/clustered_conversation_manager.py:745-749 | so it is in any timely run from an empty cluster whose bounds fit, once the key is without a holder, a command in flight and a lease |
| ClusterLaws.RedisChangesExactlyBy | OpenHands/enterprise/server/clustered_conversation_manager.py:398-484 | a lease is written by a claim that finds none and by a refresh that names it, for 15 time units, goes with its DEL or its expiry, and is touched by nothing else |
| ClusterLaws.HoldersChangeExactlyBy | OpenHands/enterprise/server/clustered_conversation_manager.py:614-650 | who holds a key after a step: exactly who came to hold it by the step, or held it and has not let go by registering, failing to start, popping, deleting, landing the DEL, crashing, or a second user under the session id |
| ClusterLaws.RoundRenews | OpenHands/enterprise/server/clustered_conversation_manager.py:422-484 | a round renews every lease of the loops of its node and no other, then sleeps for five time units; one that fails before it has sent anything starts again at once |
| ClusterLaws.LostRefreshMayLand | OpenHands/enterprise/server/clustered_conversation_manager.py:477-484 | a refresh that was sent before its round failed or its node crashed may still take effect, once, or never does |
| ClusterManager.RedisClient.SetIfAbsent | OpenHands/enterprise/server/clustered_conversation_manager.py:401-401 | SET NX EX creates the key exactly when it is absent and otherwise leaves its expiry alone |
| ClusterManager.RedisClient.ExecutePipeline | OpenHands/enterprise/server/clustered_conversation_manager.py:484-484 | executing a pipeline in order renews exactly the keys it names |
| ClusterManager.ClusteredConversationManager.Claim | OpenHands/enterprise/server/clustered_conversation_manager.py:398-405 | the step Attempt of the protocol |
| ClusterManager.ClusteredConversationManager.InsertLoop | OpenHands/enterprise/server/clustered_conversation_manager.py:751-772 | the step Register of the protocol |
| ClusterManager.ClusteredConversationManager.FindEventStore | OpenHands/enterprise/server/clustered_conversation_manager.py:225-238 | an event store is found exactly for a local session or a leased key |
| ClusterManager.ClusteredConversationManager.CollectRefresh | OpenHands/enterprise/server/clustered_conversation_manager.py:456-466 | the loop over the local sessions collects one key per session with a non-empty id: the step Snapshot |
| ClusterManager.ClusteredConversationManager.Refresh | OpenHands/enterprise/server/clustered_conversation_manager.py:484-484 | the step Execute |
| ClusterManager.ClusteredConversationManager.ConnectionsOf | OpenHands/enterprise/server/clustered_conversation_manager.py:622-626 | closing collects exactly the local connections of the session, each once |
| ClusterManager.ClusteredConversationManager.RemoveConnection | OpenHands/enterprise/server/clustered_conversation_manager.py:637-639 | each turn of the loop removes one connection and no other |
| ClusterManager.ClusteredConversationManager.PopSession | OpenHands/enterprise/server/clustered_conversation_manager.py:642-649 | a local session is popped and its key returned, any other left alone: the step Pop |
| ClusterManager.ClusteredConversationManager.DeleteKey | OpenHands/enterprise/server/clustered_conversation_manager.py:649-650 | the step Delete |
| ClusterManager.ClusteredConversationManager.StoppedConversations | OpenHands/enterprise/server/clustered_conversation_manager.py:500-517 | restarts are tried for exactly the conversations with a local connection that are neither local nor leased |
| EventLog.NextId | OpenHands/openhands/events/event_store.py:65-83 | one more than the largest stored id, 0 without any |
| EventLog.OpenedIsOk | OpenHands/openhands/events/stream.py:56-69 | opening a stream on agreeing files establishes the invariant |
| EventLog.AppendKeepsMemory | OpenHands/openhands/events/stream.py:170-184 | the locked section keeps ids consecutive and cuts the assigned records into consecutive pages of cache_size, changing no earlier assignment |
| EventLog.BeginKeepsInv | OpenHands/openhands/events/stream.py:170-184 | taking an id keeps the invariant, whatever other calls are doing |
| EventLog.WriteKeepsInv | OpenHands/openhands/events/stream.py:199-199 | so does writing an event file |
| EventLog.CheckKeepsInv | OpenHands/openhands/events/stream.py:205-208 | so does the length check outside the lock, on a list that other calls still append to |
| EventLog.StoredPageIsAssigned | OpenHands/openhands/events/stream.py:209-213 | a page about to be stored holds exactly cache_size records, those assigned to the ids of its file name |
| EventLog.StoreKeepsInv | OpenHands/openhands/events/stream.py:209-213 | storing it keeps the invariant |
| EventLog.StepKeepsInv | OpenHands/openhands/events/stream.py:163-213 | every step of every call keeps the invariant, including that each missing file or page has a call in flight that will write it |
| EventLogTheorems.StepOnlyAdds | OpenHands/openhands/events/stream.py:199-213 | no step changes a stored file or page |
| EventLogTheorems.ConcurrentWritersAgree | OpenHands/openhands/events/stream.py:163-213 | in every interleaving of add_event calls each stored page holds exactly the records assigned to its ids in order, and once no call is in flight every id below cur_id has its file, every full page is stored and all pages agree with the files |
| EventLogTheorems.RepeatedStoreIsIdentical | OpenHands/openhands/events/stream.py:201-213 | storing a page again stores the same contents |
| EventLogTheorems.StepKeepsDisk | OpenHands/openhands/events/stream.py:199-213 | a step of the one writer leaves every page in agreement with the files and changes no file |
| EventLogTheorems.StepKeepsCrashInv | OpenHands/openhands/events/stream.py:186-213 | with one writer, a step or a crash keeps every page in agreement with the files |
| EventLogTheorems.RunKeepsCrashInv | OpenHands/openhands/events/stream.py:186-213 | so does a whole run, and it never changes a stored file |
| EventLogTheorems.CrashesKeepAgreement | OpenHands/openhands/events/event_store.py:65-83 | from any stream opened on agreeing files: with one writer, however often and wherever it crashes, no page ever disagrees with an event file, no stored id is reused and no file changes |
| EventLogTheorems.CrashUnderConcurrency | OpenHands/openhands/events/stream.py:186-213 | killing concurrent writers keeps agreement if and only if no call is still to write a file that a stored page already covers |
| EventLogTheorems.CrashUnderConcurrencyCanDisagree | OpenHands/openhands/events/stream.py:186-213 | a run of two writers, a crash and a reopened stream after which a page and an event file disagree |
| EventLogTheorems.OneWriterQueuesInIdOrder | OpenHands/openhands/events/stream.py:203-203 | with one writer the queue of an opened stream has every id assigned since, in order and without a gap, up to the event of the call in flight |
| EventStream.EventStream.constructor | OpenHands/openhands/events/stream.py:56-69 | a stream opens with an empty write page and cur_id computed from the files |
| EventStream.EventStream.TakeId | OpenHands/openhands/events/stream.py:170-184 | the step Begin |
| EventStream.EventStream.WriteEventFile | OpenHands/openhands/events/stream.py:199-199 | the step WriteFile |
| EventStream.EventStream.PageIsFull | OpenHands/openhands/events/stream.py:205-208 | the step CheckLength |
| EventStream.EventStream.WriteCachePage | OpenHands/openhands/events/stream.py:209-213 | the step StorePage |
| EventStream.EventStream.PutOnQueue | OpenHands/openhands/events/stream.py:203-203 | the step Enqueue |
| EventStream.EventStream.AddEvent | OpenHands/openhands/events/stream.py:163-203 | an event with an id is refused and changes nothing; any other call runs the steps above in turn |
| EventStream.CallKeepsInv | OpenHands/openhands/events/stream.py:163-203 | an uninterrupted call keeps the invariant of the log |
| EventStream.CallEffect | OpenHands/openhands/events/stream.py:163-203 | it adds the next id, its file, a place in the queue and, exactly when it fills the page, that page |
| EventStore.EventStore.CalculateCurId | OpenHands/openhands/events/event_store.py:65-83 | the result is above every listed id and, unless 0, just above one of them |
| EventStore.EventStore.CurId | OpenHands/openhands/events/event_store.py:53-58 | the first reading fixes the value |
| EventStore.CoveringPage | OpenHands/openhands/events/event_store.py:32-37 | in an aligned page that covers an index, the event of the index stands at its remainder |
| EventStore.EventStore.LoadPage | OpenHands/openhands/events/event_store.py:172-175 | the page loaded for an index is aligned and covers it |
| EventStore.EventStore.Fetch | OpenHands/openhands/events/event_store.py:123-130 | with any page in hand that was loaded or is the dummy, the event found for an index is the one of its aligned page, else of its file |
| EventStore.EventStore.ScanUp | OpenHands/openhands/events/event_store.py:118-136 | the forward loop yields the first `limit` included events of the range |
| EventStore.EventStore.ScanDown | OpenHands/openhands/events/event_store.py:110-136 | the backward loop yields the first `limit` of the exact reverse |
| EventStore.EventStore.SearchEvents | OpenHands/openhands/events/event_store.py:85-136 | for any start, inclusive end, filter, direction and limit the search yields the limit-prefix of the included events of the range, or of their reverse |
| EventStoreTheorems.PagedSearchIsPlain | OpenHands/openhands/events/event_store.py:120-136 | paged search refines plain search: it equals the search without any page |
| EventStoreTheorems.PageComesFirst | OpenHands/openhands/events/event_store.py:120-130 | whatever pages and files hold, agreeing or not: a page that starts at a multiple of its size and reaches the index gives the event at its distance from the start, and a file is read only where there is none |
| EventStoreTheorems.LimitLetsThrough | OpenHands/openhands/events/event_store.py:131-136 | no limit and 0 let everything through, a positive limit that many from the front, a negative one a single event |
| EventStoreTheorems.SearchFindsExactly | OpenHands/openhands/events/event_store.py:120-136 | an event is found if and only if it is stored under an id of the range and included; each once and ascending, gaps passed over |
| EventStoreTheorems.MisalignedPagesAreNotRead | OpenHands/openhands/events/event_store.py:172-175 | a page that starts off a multiple of cache_size changes no search |
| EventStoreTheorems.FilterCommutes | OpenHands/openhands/events/event_store.py:131-134 | filtering during the search equals filtering its unfiltered result |
| EventStoreTheorems.SearchAfterCrashesIsPlain | OpenHands/openhands/events/event_store.py:85-136 | after any crashes of one writer the search through the pages it left is the plain search of its files |
| EventStoreTheorems.ListingGivesNextId | OpenHands/openhands/events/event_store.py:65-83 | listing the event files gives the id the writer assigns next |
| NestedEventStore.BatchIsPrefix | OpenHands/openhands/server/routes/conversation.py:235-267 | a page of the API is a prefix of what is left, non-empty for a positive limit unless nothing is left, and has_more exactly says whether something remains |
| NestedEventStore.PageIsAsLongAsItMayBe | OpenHands/openhands/server/routes/conversation.py:233-267 | the server refuses limits below 0 and above 100; the client asks for at most 100 and gets 20 when it asks for none; the page has as many of the events left as that allows and has_more says whether any remain |
| NestedEventStore.ScanPage | OpenHands/openhands/events/nested_event_store.py:57-75 | the loop over one page, and whether it returns |
| NestedEventStore.ScanAppend | OpenHands/openhands/events/nested_event_store.py:57-75 | looping over two pages is looping over the first and, unless it returns there, over the second with what is left of the limit |
| NestedEventStore.ScanIsOutcome | OpenHands/openhands/events/nested_event_store.py:57-75 | a loop over the events yields the included ones up to the one named by end_id, up to the limit |
| NestedEventStore.ForwardCursor | OpenHands/openhands/events/nested_event_store.py:63-64 | the forward cursor leaves exactly the events after the page |
| NestedEventStore.BackwardCursor | OpenHands/openhands/events/nested_event_store.py:77-80 | the backward cursor leaves exactly the events before the page |
| NestedEventStore.PageCursors | OpenHands/openhands/events/nested_event_store.py:55-64 | the loop over a page finds its smallest id and one more than its largest |
| NestedEventStore.RequestSplitsRest | OpenHands/openhands/events/nested_event_store.py:32-82 | with a positive limit one request and its cursors split what is left into this page and the rest |
| NestedEventStore.EmptyRequest | OpenHands/openhands/server/routes/conversation.py:235-267 | in both directions a request with limit 0 answers an empty page, has_more set exactly if something is stored, and leaves both cursors where they are |
| NestedEventStore.OnlyNegativeLimitsAreRefused | OpenHands/openhands/server/routes/conversation.py:235-238 | a request is refused exactly when the limit is negative |
| NestedEventStore.FetchPage | OpenHands/openhands/events/nested_event_store.py:32-82 | the method makes that request, takes over its cursors and fails when the server refuses it |
| NestedEventStore.TurnTakesPage | OpenHands/openhands/events/nested_event_store.py:34-85 | with a positive limit a turn of the loop takes its page off what is left, and a turn that goes on leaves less |
| NestedEventStore.TurnGoesOn | OpenHands/openhands/events/nested_event_store.py:34-85 | a turn fails on a negative limit, ends with the outcome of the search, or gets closer to it |
| NestedEventStore.SearchEvents | OpenHands/openhands/events/nested_event_store.py:23-85 | the pagination loop yields the stored events from start_id on, or downwards to it, each once, up to the one named by end_id and to the limit; 404 yields nothing, a negative limit fails, and limit 0 is covered where the loop ends |
| NestedEventStore.GetEvent | OpenHands/openhands/events/nested_event_store.py:87-91 | the first stored event with an id of at least `id`, which need not be the event `id` |
| NestedEventStoreTheorems.RemoteIsLocalWithoutEnd | OpenHands/openhands/events/nested_event_store.py:23-85 | without end_id the remote search equals the local one, in both directions, with any filter and positive limit |
| NestedEventStoreTheorems.RemoteIsLocalUpToStoredEnd | OpenHands/openhands/events/nested_event_store.py:65-68 | so it does forwards when end_id names a stored event of the range |
| NestedEventStoreTheorems.RemoteOverlooksMissingEnd | OpenHands/openhands/events/nested_event_store.py:65-68 | an end_id that names none is overlooked |
| NestedEventStoreTheorems.MissingEndIsHarmlessExactlyWhen | OpenHands/openhands/events/nested_event_store.py:65-68 | the results then agree if and only if no included event lies beyond end_id or the limit is reached before it |
| NestedEventStoreTheorems.PositiveLimitEnds | OpenHands/openhands/events/nested_event_store.py:34-85 | with a positive limit or none the loop ends after at most one turn more than there are events to search |
| NestedEventStoreTheorems.ZeroLimitNeverEnds | OpenHands/openhands/events/nested_event_store.py:42-43 | with limit 0 and something stored no number of turns is enough |
| NestedEventStoreTheorems.SearchEndsExactlyWhen | OpenHands/openhands/events/nested_event_store.py:34-85 | for every start, direction, end_id, filter and limit the loop ends if and only if the limit is not 0 or nothing is stored to be searched |
| Delivery.HandedAfter | OpenHands/openhands/events/stream.py:262-272 | a step advances what a subscribed callback was handed by the event just submitted to it, or not at all |
| Delivery.StepKeepsPool | OpenHands/openhands/events/stream.py:254-275 | what a pool was given stays an unbroken stretch of the queue, with callbacks added, shut down and removed during the loop |
| Delivery.SameDeliveryOrder | OpenHands/openhands/events/stream.py:130-148 | from a fresh stream, each callback has processed one unbroken stretch of the queue, in order and once each; of two that start together one is a prefix of the other |
| Delivery.StretchOnlyGrows | OpenHands/openhands/events/stream.py:254-275 | a callback that stays subscribed never gets an event twice or out of order, and nothing handed to it is taken back |
| Delivery.LivePoolExactlyWhen | OpenHands/openhands/events/stream.py:112-148 | after any run a callback has a pool that takes work if and only if, of the steps that set up or shut down a pool of it, the last one set it up |
| Delivery.ThreadSurvivesExactlyWhen | OpenHands/openhands/events/stream.py:267-272 | the queue thread outlives a run if and only if, whenever it submits an event, the pool of the callback was set up and not shut down since |
| Delivery.EachRaceEndsTheThread | OpenHands/openhands/events/stream.py:120-128 | three runs in which an exception ends the thread: a round comes to a callback between its registration and the setting of its pool, between the shutdown of its pool and its removal, and after a removal that falls between the test and the look-up |
| Delivery.RemovedBeforeTheTestIsPassedOver | OpenHands/openhands/events/stream.py:265-272 | a callback no longer registered when it is tested is passed over and nothing else changes; one found registered is submitted to next |
| Delivery.EndedThreadHandsOutNothing | OpenHands/openhands/events/stream.py:120-128 | from then on no callback is handed anything |
| Delivery.WorkersFinish | OpenHands/openhands/events/stream.py:136-148 | a worker gets through what its pool was given, one event at a time in order, and touches no other pool |
| Delivery.Subscriptions.Subscribe | OpenHands/openhands/events/stream.py:130-148 | a taken callback id is refused; a new one gets an empty pool |
| Delivery.Subscriptions.HandOutTo | OpenHands/openhands/events/stream.py:264-272 | every callback of one subscriber gets the event once, the others none |
| Delivery.Subscriptions.HandOut | OpenHands/openhands/events/stream.py:262-275 | every callback gets the event exactly once |
| DeliveryTheorems.DeliveryIsInIdOrder | OpenHands/openhands/events/stream.py:164-209 | with one writer, on a stream opened on any files and reopened any number of times, every callback processes events of consecutive ids, in id order |
| ControllerTheorems.ResetKeepsInv | OpenHands/openhands/controller/agent_controller.py:621-660 | resetting releases the pending action and leaves its tool call answered |
| ControllerTheorems.AnswerKeepsInv | OpenHands/openhands/controller/agent_controller.py:689-710 | emitting the answer keeps every account of issued actions |
| ControllerTheorems.SetStateKeepsInv | OpenHands/openhands/controller/agent_controller.py:662-714 | a change of state keeps them, ends with the state-changed observation and leaves nothing pending in STOPPED or ERROR |
| ControllerTheorems.ObservationKeepsGood | OpenHands/openhands/controller/agent_controller.py:548-559 | so does handling an observation |
| ControllerTheorems.DisplaceKeepsInv | OpenHands/openhands/controller/agent_controller.py:589-592 | so does the recall of a user message that takes the pending place |
| ControllerTheorems.RecoveryKeepsGood | OpenHands/openhands/controller/agent_controller.py:1273-1315 | so does loop recovery |
| ControllerTheorems.RestartKeepsGood | OpenHands/openhands/controller/agent_controller.py:1317-1358 | and restarting with the last user message |
| ControllerTheorems.StepKeepsGood | OpenHands/openhands/controller/agent_controller.py:852-1005 | so does a step of the agent, however it turns out |
| ControllerTheorems.LabelKeepsGood | OpenHands/openhands/controller/agent_controller.py:477-502 | so does every handler, external state change and close |
| ControllerTheorems.NoToolCallIsDropped | OpenHands/openhands/controller/agent_controller.py:626-660 | at every handler boundary of every run each runnable tool call issued by _step is pending, answered in the stream by cause or by tool-call metadata, or displaced by the recall of a later user message; nothing is pending in STOPPED or ERROR |
| ControllerTheorems.ConfirmationProtocol | OpenHands/openhands/controller/agent_controller.py:993-1004 | in every run an action that awaits confirmation directly follows the entry into AWAITING_USER_CONFIRMATION, and every later copy carries the answer of the entry into USER_CONFIRMED or USER_REJECTED it precedes, under a larger id |
| ControllerTheorems.StepIssuesOnlyWhenIdle | OpenHands/openhands/controller/agent_controller.py:854-870 | _step issues an action only while RUNNING with nothing pending, and one that needs confirmation leaves the agent awaiting it |
| ControllerTheorems.ReleasedExactlyBy | OpenHands/openhands/controller/agent_controller.py:549-559 | at every handler boundary an observation releases the pending action exactly when it names its current id and the agent is not awaiting confirmation, and otherwise changes nothing |
| ControllerTheorems.UnconfirmedObservationIsIgnored | OpenHands/openhands/controller/agent_controller.py:549-551 | an observation of the unconfirmed emission changes nothing but the history while the agent awaits confirmation and after the answer |
| ControllerTheorems.EntryEmitsOneAnswer | OpenHands/openhands/controller/agent_controller.py:689-710 | entering USER_CONFIRMED or USER_REJECTED emits exactly one copy of the pending action under a fresh larger id, or none if nothing is pending |
| ControllerTheorems.ActionHistory | OpenHands/openhands/controller/agent_controller.py:602-619 | of all actions handled only the two loop recoveries with an analysis change the history, and they truncate it |
| ControllerTheorems.StartStaysUntouched | OpenHands/openhands/controller/agent_controller.py:1294-1306 | while an analysis is not replaced, the history before its start stays as it was, however often the agent recovers |
| ControllerTheorems.FirstRecoveryCutsFromTheStart | OpenHands/openhands/controller/agent_controller.py:1273-1292 | a recovery leaves exactly the history there was before the reported start |
| ControllerLaws.ResultDecidesState | OpenHands/openhands/controller/agent_controller.py:548-559 | at every handler boundary the result of the pending action leads to RUNNING after USER_CONFIRMED, to AWAITING_USER_INPUT after USER_REJECTED, is ignored while awaiting confirmation, and otherwise leaves the state; it releases the action unless ignored |
| ControllerLaws.AnswerGoesOut | OpenHands/openhands/controller/agent_controller.py:689-710 | entering USER_CONFIRMED or USER_REJECTED emits one copy of the issued action, without thought and marked confirmed or rejected accordingly, then the change of state |
| ControllerLaws.AnswerIsCarriedOut | OpenHands/openhands/controller/agent_controller.py:531-559 | over the run from the entry through delivery of the copy's result: the stream gets copy, change of state, result and change of state, nothing is pending, and the agent makes its next step in RUNNING after a confirmation and waits for input after a rejection |
| ControllerLaws.WhichActionsAsk | OpenHands/openhands/controller/agent_controller.py:950-999 | a step asks for confirmation, rather than emitting at once, for a confirmable action in confirmation mode: always in CLI mode; otherwise, if the controller confirms at all, always without an analyzer and exactly for HIGH assessed risk with one; and for nothing else |
| ControllerLaws.MarkedActionsAsk | OpenHands/openhands/controller/agent_controller.py:993-999 | an action that comes marked as awaiting confirmation asks in every configuration |
| ControllerLaws.HowAStepEnds | OpenHands/openhands/controller/agent_controller.py:852-949 | a step ends in ERROR exactly after a loop, a limit or an exception, in RATE_LIMITED exactly after one a provider's limit caused, awaiting confirmation exactly if it asked, and in RUNNING otherwise |
| ControllerLaws.WhatAStepLeaves | OpenHands/openhands/controller/agent_controller.py:895-1004 | exactly an emitted action that needs a result is pending afterwards; a malformed answer of the model becomes an error observation and a full context a request for condensation; a loop leaves its analysis |
| ControllerLaws.WakesExactlyBy | OpenHands/openhands/controller/agent_controller.py:402-441 | an event makes the agent step if and only if it leaves it RUNNING with nothing pending and is a message, a condensation or the request for one, a null observation of anything but the first event, or another observation that is no change of state |
| ControllerLaws.HiddenEventsAreIgnored | OpenHands/openhands/controller/agent_controller.py:477-479 | a hidden event changes nothing |
| ControllerLaws.EntersHistoryExactlyWhen | OpenHands/openhands/controller/state/state_tracker.py:38-48 | delivery appends to the history exactly what is neither hidden, null, a request to change the state nor the change itself |
| ControllerLaws.UserMessageIsActedOn | OpenHands/openhands/controller/agent_controller.py:561-595 | over the run from its delivery through that of the result of its recall, a user message sets the agent running and makes it step with nothing pending |
| ControllerLaws.ActionDecidesState | OpenHands/openhands/controller/agent_controller.py:504-529 | which state each action leads to: Finish to FINISHED, Reject to REJECTED, a waiting agent message to AWAITING_USER_INPUT, the recovery options 1 to 3 to AWAITING_USER_INPUT, RUNNING (if the history has a user message) and STOPPED; any other action leaves the state |
| ControllerLaws.RestartRecallsTheLastMessage | OpenHands/openhands/controller/agent_controller.py:1322-1354 | restarting emits a recall of the last user message of the history as it was before it is cut, which is then pending |
| ControllerLaws.StoppingAnswersThePending | OpenHands/openhands/controller/agent_controller.py:626-660 | stopping or failing with an action pending emits, unless the history answers its call, an error observation with its cause, its call and the text for that reason |
| ControllerLaws.StreamTellsTheState | OpenHands/openhands/controller/agent_controller.py:662-714 | over any run the agent is in the state told by the last change of state emitted since, or in the one before |
| ControllerRecovery.StepFollowsDetector | OpenHands/openhands/controller/agent_controller.py:880-886 | a step that goes by the detector leaves the analysis that is_stuck leaves for the history of the controller at that moment |
| ControllerRecovery.HandleGoesOn | OpenHands/openhands/controller/agent_controller.py:602-619 | handling an event, a recovery included, takes nothing out of the stream and never touches the analysis |
| ControllerRecovery.AnalysisOutlastsLabel | OpenHands/openhands/controller/stuck.py:80-82 | an analysis outlasts one step of the run exactly when the detector is not asked, has fewer than three events to look at, or reports the same start |
| ControllerRecovery.AnalysisStaysExactlyWhen | OpenHands/openhands/controller/stuck.py:80-131 | over a whole run an analysis stays if and only if, whenever the detector is asked, it has fewer than three events to look at or reports the same start |
| ControllerRecovery.LabelHistory | OpenHands/openhands/controller/agent_controller.py:1294-1306 | while the analysis is there, a delivered recovery cuts the history back to its start, any other delivery appends what belongs in the history, and nothing else changes it |
| ControllerRecovery.HistorySinceLast | OpenHands/openhands/controller/agent_controller.py:1273-1292 | from a history cut at the start, the history is always the cut one followed by what was delivered into it since the last recovery |
| ControllerRecovery.NothingSinceLastExactlyWhen | OpenHands/openhands/controller/agent_controller.py:602-619 | nothing was delivered since the last recovery if and only if every delivery into the history is, or is followed by, one |
| ControllerRecovery.RecoveryCutsAllSinceTheLast | OpenHands/openhands/controller/agent_controller.py:602-619 | as long as the detector finds nothing new, a further recovery cuts exactly what was delivered into the history since the last one; it cuts nothing if and only if every such delivery is, or is followed by, a recovery |
| ControllerRecovery.SecondRecoveryDropsANewMessage | OpenHands/openhands/controller/agent_controller.py:1273-1292 | a run that goes by the detector: a report, a recovery, a new user message and the observation of its recall, and a second recovery that drops both |
| AgentController.AgentController.Reset | OpenHands/openhands/controller/agent_controller.py:621-660 | the method does what the state machine says |
| AgentController.AgentController.SetAgentStateTo | OpenHands/openhands/controller/agent_controller.py:662-714 | likewise |
| AgentController.AgentController.HandleObservation | OpenHands/openhands/controller/agent_controller.py:531-559 | likewise: the result of the pending action leads from USER_CONFIRMED to RUNNING and from USER_REJECTED to AWAITING_USER_INPUT, is ignored while awaiting confirmation, and otherwise only releases it |
| AgentController.AgentController.HandleMessageAction | OpenHands/openhands/controller/agent_controller.py:561-600 | likewise |
| AgentController.AgentController.TruncateMemoryToPoint | OpenHands/openhands/controller/agent_controller.py:1294-1315 | likewise: a point past the end truncates nothing |
| AgentController.AgentController.PerformLoopRecovery | OpenHands/openhands/controller/agent_controller.py:1273-1292 | likewise |
| AgentController.AgentController.RestartWithLastUserMessage | OpenHands/openhands/controller/agent_controller.py:1317-1358 | likewise, the reverse scan finding the last user message |
| AgentController.AgentController.HandleAction | OpenHands/openhands/controller/agent_controller.py:504-529 | likewise; ControllerLaws.ActionDecidesState gives the state each action leads to |
| AgentController.AgentController.Step | OpenHands/openhands/controller/agent_controller.py:852-1005 | likewise; ControllerLaws.WhichActionsAsk, HowAStepEnds and WhatAStepLeaves say what that is |
| AgentController.AgentController.SendAction | OpenHands/openhands/controller/agent_controller.py:950-1004 | likewise |
| AgentController.AgentController.OnEvent | OpenHands/openhands/controller/agent_controller.py:477-502 | likewise |
| AgentController.AgentController.Close | OpenHands/openhands/controller/agent_controller.py:271-287 | likewise |
| StuckTheorems.EqNoPidIsPartialEquivalence | OpenHands/openhands/controller/stuck.py:457-481 | the comparison is symmetric and transitive, and reflexive except on edits of at most two lines |
| StuckTheorems.WindowAtIndices | OpenHands/openhands/controller/stuck.py:90-97 | the reverse scans collect the events at the last positions of their kind |
| StuckTheorems.RepeatedPairMeansAgreement | OpenHands/openhands/controller/stuck.py:145-162 | a report of scenario 1 means that the last four actions agree pairwise and the last four observations too |
| StuckTheorems.ContextWindowFiresExactlyWhen | OpenHands/openhands/controller/stuck.py:419-453 | scenario 5 fires if and only if two of the last ten condensations are neighbours |
| StuckTheorems.SpreadCondensationsAreReportedExactlyWhen | OpenHands/openhands/controller/stuck.py:419-453 | two neighbouring condensations followed by n more, each after another event, are reported if and only if n is 8: with other events between them, and no longer once an eleventh condensation pushes the pair out of the last ten |
| StuckTheorems.ContextStartsAtFirstNeighbour | OpenHands/openhands/controller/stuck.py:432-451 | the start reported is the first condensation among the last ten that has a neighbour among them |
| StuckTheorems.PositionCountsDropped | OpenHands/openhands/controller/stuck.py:63-78 | an event looked at stands in the history as far behind its filtered position as the offset and the number of events filtered out before it |
| StuckTheorems.ContextStartsBefore | OpenHands/openhands/controller/stuck.py:432-451 | the start reported for condensations is at or before every condensation among the last ten that has a neighbour among them |
| StuckTheorems.StartIsBeforeRepetition | OpenHands/openhands/controller/stuck.py:157-160 | in the filtered history the reported start is at or before everything that repeats: the last actions or messages of the scenario, or those condensations |
| StuckTheorems.RecoveryCutsTheRepetition | OpenHands/openhands/controller/agent_controller.py:1294-1306 | loop_start_idx is below the history length and at or before the unfiltered position of every repeated action, message or condensation of the scenario, so truncating there, even after appends, keeps a proper prefix with none of them |
| StuckTheorems.NothingKeptEqualsTheLoopsAction | OpenHands/openhands/controller/stuck.py:157-160 | for a loop of actions nothing kept since the last user message equals its earliest action |
| StuckTheorems.MonologueKeepsNoCopyExactlyWhen | OpenHands/openhands/controller/stuck.py:326-348 | recovery from a monologue keeps no copy of its message since the last user message if and only if the third-last agent message looked at stands no further behind the first copy than the number of events filtered out before that copy |
| StuckTheorems.CondensationsKeepNoneExactlyWhen | OpenHands/openhands/controller/stuck.py:432-451 | recovery from a loop of condensations keeps none of them since the last user message if and only if the first neighbour among the last ten stands no further behind the first condensation than the number of events filtered out before that one |
| StuckTheorems.OnlyCopiesKeepAllButThree | OpenHands/openhands/controller/stuck.py:326-348 | of a history of nothing but copies of one agent message recovery keeps all but three |
| StuckTheorems.OnlyCondensationsKeepAllButTen | OpenHands/openhands/controller/stuck.py:432-451 | of a history of nothing but condensations it keeps all but ten |
| StuckTheorems.FourAgreeingPairsAreReported | OpenHands/openhands/controller/stuck.py:145-162 | any history followed by four agreeing pairs is reported, in both modes |
| StuckTheorems.FourCopiesAreReportedExactlyWhen | OpenHands/openhands/controller/stuck.py:464-474 | four copies of one pair are reported as scenario 1 if and only if the action is not an edit of at most two lines |
| StuckTheorems.ThreeAlternationsAreReported | OpenHands/openhands/controller/stuck.py:376-399 | any history followed by three alternations of two pairs is reported, in both modes |
| StuckLaws.StuckExactlyWhen | OpenHands/openhands/controller/stuck.py:99-131 | the agent is reported stuck if and only if one of the five loops stands at the end of what is looked at; the report names the first that does and how often it takes |
| StuckLaws.RepeatedPairExactlyWhen | OpenHands/openhands/controller/stuck.py:133-164 | scenario 1 if and only if the last four actions agree pairwise and the last four observations do |
| StuckLaws.RepeatedErrorExactlyWhen | OpenHands/openhands/controller/stuck.py:166-237 | scenario 2 if and only if the last three actions agree pairwise and the last three observations are all errors, or all outputs of cells with the same syntax error |
| StuckLaws.MonologueExactlyWhen | OpenHands/openhands/controller/stuck.py:311-350 | scenario 3 if and only if the last three messages of the agent are equal and nothing is observed between them |
| StuckLaws.PatternExactlyWhen | OpenHands/openhands/controller/stuck.py:352-400 | scenario 4 if and only if every other one of the last six actions agrees, and of the last six observations |
| StuckLaws.LookedAtExactly | OpenHands/openhands/controller/stuck.py:49-78 | what is looked at: everything behind the last user message, or in headless mode everything, that is no user message and no null event, in order and each once |
| StuckLaws.ThreeFailuresAreReported | OpenHands/openhands/controller/stuck.py:166-237 | any history that ends in three agreeing actions, each followed by an error, is reported in both modes; so with outputs of cells that show the same syntax error |
| StuckLaws.ComparedBy | OpenHands/openhands/controller/stuck.py:457-481 | two command outputs agree exactly by command and exit code, two edits exactly by their first three lines if both have as many, and anything else by equality |
| StuckLaws.ContainsExactlyWhen | OpenHands/openhands/controller/stuck.py:463-466 | the search for the name of the edit function finds it wherever it stands |
| StuckLaws.LinesRoundTrip | OpenHands/openhands/controller/stuck.py:467-470 | splitting into lines loses nothing and leaves no line break in a line |
| StuckDetector.CollectLatest | OpenHands/openhands/controller/stuck.py:86-97 | one reverse scan collects the last k actions and the last k observations, wherever they stand |
| StuckDetector.CollectPositions | OpenHands/openhands/controller/stuck.py:317-321 | the enumerated positions of the events of one kind |
| StuckDetector.StuckDetector.AfterLastUser | OpenHands/openhands/controller/stuck.py:51-60 | the reverse scan finds the position after the last user message |
| StuckDetector.StuckDetector.Relevant | OpenHands/openhands/controller/stuck.py:67-78 | the filter drops user messages and null events |
| StuckDetector.StuckDetector.IsRepeatingPair | OpenHands/openhands/controller/stuck.py:133-164 | scenario 1, and the analysis it records |
| StuckDetector.StuckDetector.IsRepeatingError | OpenHands/openhands/controller/stuck.py:166-237 | scenario 2, which StuckLaws.RepeatedErrorExactlyWhen settles: three agreeing actions and three errors; the start is that of the fourth-last action when there is one |
| StuckDetector.StuckDetector.IsMonologue | OpenHands/openhands/controller/stuck.py:311-350 | scenario 3 |
| StuckDetector.StuckDetector.IsPattern | OpenHands/openhands/controller/stuck.py:352-400 | scenario 4 |
| StuckDetector.StuckDetector.IsContextWindowError | OpenHands/openhands/controller/stuck.py:402-455 | scenario 5: the first pair of neighbours among the last ten condensations |
| StuckDetector.StuckDetector.IsStuck | OpenHands/openhands/controller/stuck.py:38-131 | the first scenario that applies is reported; an analysis is forgotten when none does, but kept when fewer than three events are left to look at |
| Metrics.MergeConserves | OpenHands/openhands/llm/metrics.py:180-196 | merging keeps totals equal to the sums of the lists |
| Metrics.AdditionsConserve | OpenHands/openhands/llm/metrics.py:130-178 | so do the additions |
| Metrics.PerformExtends | OpenHands/openhands/llm/metrics.py:130-196 | no operation removes or moves a recorded entry |
| Metrics.RunConserves | OpenHands/openhands/llm/metrics.py:130-196 | after any sequence of additions and merges over any objects, self-merges included, every accumulated cost and token count is the sum of its list, the context window the maximum, and no list lost an entry |
| Metrics.FilteredIsSuffixExactlyWhen | OpenHands/openhands/llm/metrics.py:242-247 | telling new costs apart by timestamp is right if and only if it drops every old one and keeps every new one |
| Metrics.DiffRoundTrip | OpenHands/openhands/llm/metrics.py:223-274 | merging a difference into its baseline restores cost, latencies, usages and token counts, and restores the cost list if and only if the timestamps separate old from new |
| Metrics.GainsRoundTrip | OpenHands/openhands/llm/metrics.py:223-274 | so it is for every object between any two points of a run |
| Metrics.IncreasingTimestampsSeparate | OpenHands/openhands/llm/metrics.py:242-247 | strictly increasing timestamps separate |
| MetricsLedger.PerformKeepsAccount | OpenHands/openhands/llm/metrics.py:130-196 | every operation keeps the account: the totals and records of each object are those of the arguments of the calls that reached it |
| MetricsLedger.RunKeepsAccount | OpenHands/openhands/llm/metrics.py:130-196 | so does any sequence of them |
| MetricsLedger.TotalsAreWhatWasReported | OpenHands/openhands/llm/metrics.py:33-44 | over any run from nothing, each token total of an object is the sum of the corresponding arguments of the calls made on it or merged into it, its context window their maximum, its cost the sum of the costs that were not refused, and its records are the usages reported, in order |
| Metrics.Metrics.AddCost | OpenHands/openhands/llm/metrics.py:130-134 | a negative cost is refused and changes nothing; any other is added to the total and recorded with the model and the time |
| Metrics.Metrics.AddResponseLatency | OpenHands/openhands/llm/metrics.py:136-141 | a latency is recorded as it is and a negative one as 0 |
| Metrics.Metrics.AddTokenUsage | OpenHands/openhands/llm/metrics.py:143-178 | one record is appended whose counts are the arguments of the same name, with prompt and completion together as the per-turn count; each total grows by its argument, and the context window to the larger |
| Metrics.Metrics.Merge | OpenHands/openhands/llm/metrics.py:180-196 | the merged value, also when the other object is this one; the other object is unchanged |
| Metrics.Metrics.Diff | OpenHands/openhands/llm/metrics.py:223-274 | a fresh object with what came on top of the baseline |
| Replay.DeliveredIsFiltered | OpenHands/openhands/controller/replay.py:59-81 | alternating should_replay and step hands out exactly the actions, in order and once each |
| Replay.KeptExactly | OpenHands/openhands/controller/replay.py:23-48 | an event is kept if and only if it comes from the user or the agent and is no null observation |
| Replay.HandedOutExactly | OpenHands/openhands/controller/replay.py:52-81 | of the kept events exactly the messages and the other actions are handed out |
| Replay.ReplayManager.constructor | OpenHands/openhands/controller/replay.py:23-50 | keeps what neither the environment issued nor is a null observation; a message keeps its wait flag only if it occurs nowhere but last |
| Replay.ReplayManager.ShouldReplay | OpenHands/openhands/controller/replay.py:59-73 | moves to the next action, takes nothing away, says whether one is left, and moves no further when asked again |
| Replay.ReplayManager.Step | OpenHands/openhands/controller/replay.py:75-81 | hands out the current action and leaves the rest |
| Replay.ReplayManager.ReplayAll | OpenHands/openhands/controller/agent_controller.py:895-898 | the steps of the controller are given exactly the actions of the kept events, after which should_replay stays false |
| Pairs.GetPairsFromEvents | OpenHands/openhands/events/utils.py:12-61 | the two dictionary loops yield one pair per action id in order of first use, then one per orphaned cause |
| Pairs.PairOrphans | OpenHands/openhands/events/utils.py:53-59 | its last loop yields one pair per orphaned cause, in order of first use |
| Pairs.ActionsAreConservedExactlyWhen | OpenHands/openhands/events/utils.py:45-51 | every action appears exactly once, in order, with the last observation it caused or a null one, if and only if the action ids are distinct |
| Pairs.OrphansAreConserved | OpenHands/openhands/events/utils.py:53-59 | then comes exactly one pair per cause that names no action and whose last observation is not null, and nothing else |
| Pairs.LastObservationIsLast | OpenHands/openhands/events/utils.py:34-43 | the observation paired is one of the list, and no later one has the same cause |
| Evaluation.PrepareDataset | OpenHands/evaluation/utils/shared.py:225-302 | what is left to do is the selection minus the ids in the output file, lines with an error included |
| Evaluation.SelectionIsDistinct | OpenHands/evaluation/utils/shared.py:250-279 | the selection keeps instance ids distinct |
| Evaluation.ChosenExactly | OpenHands/evaluation/utils/shared.py:248-279 | with ids given exactly the instances that bear one, whatever is to be skipped or sampled; otherwise all behind the skipped ones, or a sample of these of at most the limit |
| Evaluation.FatalFailuresAreCounted | OpenHands/evaluation/utils/shared.py:409-418 | each attempt is told how many of those before it failed fatally |
| Evaluation.ProcessInstance | OpenHands/evaluation/utils/shared.py:400-491 | at most max_retries + 1 attempts, all but the last failures; a result or timeout is returned at once; the last failure raises or is skipped, its line naming the retries and the error; a negative max_retries yields nothing |
| Evaluation.WrittenIsPrefix | OpenHands/evaluation/utils/shared.py:543-551 | the lines of one worker stand for the first instances, in order |
| Evaluation.RunEvaluation | OpenHands/evaluation/utils/shared.py:543-551 | one worker writes one line per instance, with its error if it has one, and stops at the first instance that yields none; with errors skipped it finishes |
| Evaluation.LineOfFailing | OpenHands/evaluation/utils/shared.py:442-460 | for an instance whose attempts all fail the line written records the error if errors are skipped, and otherwise the run ends before it |
| Evaluation.FailingIsRunAgainExactlyWhen | OpenHands/evaluation/utils/shared.py:346-350 | an instance whose attempts all fail is left for a further run if and only if errors are not skipped |
| Evaluation.SkippedErrorIsNotRetried | OpenHands/evaluation/utils/shared.py:346-350 | a failing instance with errors skipped: its line records the error, and a run after the cause is fixed has nothing to do |
| Evaluation.RunWritesOnlyMissing | OpenHands/evaluation/utils/shared.py:305-318 | a run adds one line for an id that had none, and no other |
| Evaluation.NothingIsWrittenTwice | OpenHands/evaluation/utils/shared.py:238-300 | over any series of cut-off runs no selected instance is written twice and nothing else is added |
| Evaluation.ResumeIsExactlyOnce | OpenHands/evaluation/utils/shared.py:238-300 | a completed series leaves each selected instance exactly once |
| Evaluation.RestartsAreExactlyOnce | OpenHands/evaluation/utils/shared.py:225-302 | so it is for any one set of arguments over a dataset with distinct ids |
| Evaluation.CompletedLeavesNothing | OpenHands/evaluation/utils/shared.py:291-300 | after a completed run nothing remains |
| AuthTokens.StepKeepsLock | OpenHands/enterprise/storage/auth_token_store.py:99-114 | only the call that holds the row lock is past its read, and the row is still what it read |
| AuthTokens.StepKeepsSpent | OpenHands/enterprise/storage/auth_token_store.py:119-145 | every step keeps the account of spent and lost refresh tokens |
| AuthTokens.SpentOncePerLoss | OpenHands/enterprise/storage/auth_token_store.py:101-145 | in every interleaving a refresh token is spent as often as its refresh was lost or once more, and exactly as often while it is the token of the row and no refresh of it is on the way |
| AuthTokens.SingleRefreshPerToken | OpenHands/enterprise/storage/auth_token_store.py:101-114 | so when every refresh is committed no refresh token is spent twice |
| AuthTokens.LosingRound | OpenHands/enterprise/storage/auth_token_store.py:130-145 | a refresh whose transaction is rolled back leaves the row ready to spend its token again |
| AuthTokens.SpendingRound | OpenHands/enterprise/storage/auth_token_store.py:119-145 | a refresh that is committed spends it once |
| AuthTokens.OneLossSpendsTwice | OpenHands/enterprise/storage/auth_token_store.py:83-87 | from any initial state with a row that can be refreshed, some run with a single lost refresh spends its token twice |
| AuthTokens.SpentOnceExactlyWithoutLoss | OpenHands/enterprise/storage/auth_token_store.py:83-87 | for such a row, no run with at most L lost refreshes spends a token twice if and only if L is 0 |
| AuthTokens.LockProtectsRow | OpenHands/enterprise/storage/auth_token_store.py:101-114 | while a call is past its read nobody else changes the row |
| AuthTokens.EndReturnsTheRow | OpenHands/enterprise/storage/auth_token_store.py:147-156 | a call that ends returns what the row then holds, or raises and leaves it |
| AuthTokens.CallReturnsTheRow | OpenHands/enterprise/storage/auth_token_store.py:147-156 | a call returns exactly what the row holds at the end of its own lock period, during which nobody else changes it; a call that raises leaves it as it is |
| AuthTokenExpiry.LoadRefreshesExactlyWhen | OpenHands/enterprise/server/auth/token_manager.py:296-318 | an uninterrupted call with the callback keeps a row exactly if its access expiry is 0 or at least now + 14400; otherwise it returns and stores the provider's reply if the refresh token has not expired and the provider replies, and else raises; a call without the callback keeps the row |
| AuthTokenExpiry.LoadedTokensAreGood | OpenHands/enterprise/server/auth/token_manager.py:296-302 | so what it returns is good for four hours or has just come from the provider |
| AuthTokenExpiry.SpendsOnlyWhatExpires | OpenHands/enterprise/server/auth/token_manager.py:310-318 | in every interleaving a step spends a refresh token only while the row holds it with less than four hours of access left and a refresh expiry not passed, for a call with the callback that holds the lock |
| AuthTokenExpiry.ReturnedTokensAreGood | OpenHands/enterprise/storage/auth_token_store.py:119-156 | in every interleaving a call with the callback returns tokens of the row that are good for four hours, or at its commit the provider's reply to it |
| AuthTokenExpiry.RowChangesOnlyBy | OpenHands/enterprise/storage/auth_token_store.py:133-145 | nothing changes the row but a commit, which stores the reply, and a log-in |
| AuthTokens.Load | OpenHands/enterprise/server/auth/token_manager.py:289-330 | tokens returned are those stored, and an error stores nothing; AuthTokenExpiry.LoadRefreshesExactlyWhen says when they are refreshed |
| AuthTokens.UninterruptedLoad | OpenHands/enterprise/storage/auth_token_store.py:99-156 | a call that nobody interrupts does just that in the state machine |
| AuthTokens.AuthTokenStore.StoreTokens | OpenHands/enterprise/storage/auth_token_store.py:26-67 | the row is written whether or not there was one |
| AuthTokens.AuthTokenStore.LoadTokens | OpenHands/enterprise/storage/auth_token_store.py:99-156 | the method does what such a call does: it keeps and returns a row whose access expiry is 0 or at least now + 14400, and with the callback returns such a row or the reply it has stored |

## Left out

- ClusterLease.Exclusion: counts a popped session as a holder only until its DEL has been executed; the session object is closed after that, in the code as in the model.
- ClusterTiming.TimelyRunIsSafe: leaves out conversations with an empty id, which a refresh round skips.
- One session id opened under two user ids on one node: the dictionary is indexed by session id alone, and the second entry replaces the first.
- Connection keys in Redis, messages between nodes, the limit on concurrent conversations, looking up the user in the database.
- EventLogTheorems.CrashesKeepAgreement: one writer at a time; for concurrent writers CrashUnderConcurrency gives the exact condition.
- EventStore.EventStore.SearchEvents: pages written under another cache_size, and a shutdown in the middle of a search, are not modelled.
- NestedEventStore.SearchEvents: with limit 0 its precondition is that nothing is stored to be searched, exactly the case in which the loop ends (SearchEndsExactlyWhen); a reverse search with end_id stops at that event, a lower bound, which the contract states but which is not compared with the local search. The single loop of the client is split into one that yields and one that finds the cursors.
- Delivery.SameDeliveryOrder: closing a stream, which discards what is still queued, and exceptions in callbacks. Delivery itself is not promised: the queue thread may end (ThreadSurvivesExactlyWhen) or never run.
- Delivery.ThreadSurvivesExactlyWhen: removing a callback while its own subscribe call is still running, and two subscribe calls for one id at once.
- Secret replacement in stored events, the one-megabyte warning, file names.
- ControllerTheorems.NoToolCallIsDropped: delegates, iteration and budget flags, interference by other threads inside one handler, and the history rewritten when a controller closes. An observation counts as an answer by its metadata wherever it stands in the stream, as in the reset of the code.
- AgentController.AgentController.HandleAction: delegate actions, and the outputs a finished or rejected task leaves in the state.
- AgentController.AgentController.Step: the control flags, the agent and the verdict of the detector are one arbitrary outcome; ControllerRecovery.StepFollowsDetector gives the analysis when the verdict is the detector's.
- AgentController.AgentController.Close: unsubscribing, the state tracker, and closing without stopping first.
- AgentController.AgentController.TruncateMemoryToPoint: the end_id of the state and the cached first user message.
- StuckDetector.StuckDetector.IsRepeatingError: the texts of the syntax errors; whether three cell outputs show the same one is a parameter.
- StuckTheorems.RecoveryCutsTheRepetition: observations of the repetition that stand before its first action are not covered, and earlier copies of a message or condensation than those that repeat may be kept, in the code as in the model (MonologueKeepsNoCopyExactlyWhen, CondensationsKeepNoneExactlyWhen).
- Metrics.DiffRoundTrip: per-turn tokens and the budget are not restored; numbers are exact, rounding is not modelled.
- Replay.ReplayManager.ReplayAll: reading a trajectory from a file.
- Pairs.GetPairsFromEvents: events are compared as values, not as objects.
- Evaluation.RunEvaluation: one worker, and of a result only its id and error; with several, results come in any order, which IsRun allows. A line torn by a kill and result lines that are not JSON are left out, and a time limit is only passed to the workers of a pool.
- Evaluation.PrepareDataset: conversion of ids to the column type, and serialisation of instances.
- AuthTokens.SingleRefreshPerToken: one row; encryption, the HTTP exchange with the provider and its retries.
- Frontends, routers, runtimes, LLM calls, logging, configuration and the SWE-bench directory.
