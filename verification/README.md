# srvbus: the protocols of three in-memory servers

srvbus runs an event server, a message server and a service server in one process. Each hides a
protocol behind mutexes, goroutines and unbuffered channels. This project models those protocols in
Dafny and proves what they keep over every interleaving.

How the model is built:

- Every goroutine is a pending task and a locked section, channel hand-over or state check is one
  atomic step of a state machine (the few calls that join two are named under "Left out"). A run is
  any sequence of enabled steps, so a theorem about reachable states is a theorem about every schedule.
- The code that updates fields in place is modelled as classes. In the topic, message and service
  classes each operation is one or more steps of the state machine and leads from reachable to
  reachable states (for a queue's own goroutines `LoopReachable` and `SentReachable` say so), so the
  theorems about runs apply to it. The operations on the topic tree and the data item are tied to
  functions of the old state.
- Fields named as histories (tasks taken, envelopes delivered, states passed through, counts of calls)
  exist for the proofs and influence no step.

The parts, hardest first:

| files | what they model |
|---|---|
| `TopicLog`, `TopicLogInvariants`, `SubscriptionInvariants`, `TopicDelivery`, `Continuations`, `DeliveryConditions`, `LiveCompleteness`, `Unsubscribing`, `TopicRuns`, `TopicObject`, `Events` | one topic of the event server: append-only log, replay and live fan-out, sequential and filtered delivery |
| `Names`, `TopicTree`, `SubscriptionRequests`, `EventServer` | the tree of topics: parsing of names, lookup, adding one or many, guarded recursive removal, recursive subscription, on heap objects |
| `MessageQueue`, `MessageProtocol`, `MessageDelivery`, `MessageAcceptance`, `MessageObject` | message queues: producers' batches merged into one log, one cursor per receiver |
| `Services`, `ServiceLifecycle`, `ServiceAccount`, `WaitForServices`, `WaitVerdict`, `ServiceObject` | service lifecycle and waiting for all running services |
| `DataItem` | the data cursor events and messages share |

Where the code does less than its documentation suggests, the model follows the code and says exactly
when the expected property holds:

- A sender that takes a subscription's lock out of order waits inside it (`BlockedForGood`,
  `BlockedIsReachable`); it goes on exactly for the orders named in `HolderProceeds`.
- Position 0 may be delivered twice to a subscription from the beginning (`ZeroTwiceIsReachable`):
  exactly when event 0 was not stored, or not fanned out, when the subscription was made
  (`ZeroTwiceCondition`). Once a sender has taken the lock, position 0 has been or can be delivered
  before the topic is cancelled exactly when the first sender has position 0 (`ZeroCondition`). When it has position 1,
  position 0 is left out for good (`ZeroMayBeSkipped`, `SkippedForGood`); when it has a later one,
  nothing is delivered at all (`BlockedCondition`).
- A later position may have two senders, under the same condition (`AtMostOneTask`); the second one
  blocks the subscription (`SecondTaskBlocks`, `SecondTaskIsReachable`).
- A subscription to new events only may get events from before it was made: exactly while their
  fan-outs and those of all earlier events are pending (`OldEventCondition`, `OldEventIsReachable`).
- Unsubscribing does not stop what is on its way: tasks whose goroutine has taken its snapshot of the
  list still come (`UnsubscribedCondition`), and a replay that has not started replays events stored
  later too (`StillFedCondition`). Nothing else does (`NothingStoredLater`).
- Unsubscribing takes back all of a subscriber's subscriptions on the topic, so it undoes the last one
  only when it was the first (`UnsubscribeUndoes`).
- The replay of a positive start position numbers events relative to that position (`ReplayNumbering`).
- Removing a root topic deletes the caller's string from the table, not the topic's key (`RemoveTopic`,
  `KeyOfAnother`).
- A topic name that is one piece followed by slashes keeps its slash, and inner names are not trimmed
  (`TargetIsConcatenation`, `SlashyLeaf`).
- Two overlapping `ExecService` calls may both succeed (`TwoExecsGoBack`); without a stop channel
  the state only moves forward exactly when at most one has succeeded (`ForwardCondition`).
- `ResumeService` sends inside the server's lock: in the jammed states it never returns
  (`JammedForGood`, `JammedIsReachable`), in all others it can go on (`ResumeGoesOn`).
- `ExecService` on a stopped server reports a missing service, as the code does.

## Model

| member | source | states |
|---|---|---|
| `TopicDelivery.EventsConserved` | es/topic.go:276-297 | in every run accepted events = stored + in flight (+ dropped once the server's context is done); the envelope check rejects none; stored event i has index i |
| `TopicDelivery.LogAppendOnly` | es/topic.go:286-290 | along any path the log of events only grows at its end |
| `TopicDelivery.FromBeginDelivery` | es/subscriptions.go:110-137 | an unfiltered subscription from the beginning gets position 0 at most twice, then 1, 2, 3, ... without gap, duplicate or reordering, each with the stored event |
| `TopicDelivery.DeliveredIsStored` | es/topic.go:302-320 | with StartPos 0 or -1 the envelope delivered for a position is the stored event of that position |
| `TopicDelivery.TasksPerPosition` | es/topic.go:286-420 | every position gets at most two send tasks, and at least one once the replay and fan-out goroutines have drained, for any timing of subscribing, replaying, storing and fanning out |
| `TopicDelivery.HolderProceeds` | es/subscriptions.go:122-137 | the sender inside the lock leaves the wait loop exactly when the senders so far took the lock as 0, ..., 0, 1, 2, 3, ... |
| `TopicDelivery.FromBeginComplete` | es/subscriptions.go:110-137 | while the topic is not cancelled, once its goroutines have drained, an unfiltered subscription from the beginning still on its list has been delivered the whole log: position 0 once or twice, every later position once |
| `TopicDelivery.InOrderDelivery` | es/subscriptions.go:110-139 | senders that take the lock in position order, one per position, never wait; the subscription gets the stored events in order, one per sender that has left the lock, and all of them once its goroutines have drained |
| `TopicDelivery.BlockedForGood` | es/subscriptions.go:110-139 | an out-of-order sender keeps the lock: until the context is done the subscription never changes again, in any continuation |
| `TopicDelivery.BlockedIsReachable` | es/subscriptions.go:110-139 | a concrete run that ends in such a blocked subscription, so delivery is not unconditional |
| `TopicDelivery.OnlyNewDelivery` | es/topic.go:405-414 | an unfiltered only-new subscription: cursor inside the log, delivered positions strictly increase, each with the stored event |
| `TopicDelivery.OnlyNewCursorAdvances` | es/subscriptions.go:128-134 | no step moves that cursor back, not even the reset racing with the senders |
| `TopicDelivery.ReplayNumbering` | es/topic.go:416-419 | the replay announces every event at its own index if and only if it starts at 0 or replays nothing |
| `TopicDelivery.FilteredDeliveries` | es/subscriptions.go:97-108 | a filtering subscription gets only envelopes all its filters accept, each send task at most once |
| `TopicDelivery.FilteredComplete` | es/subscriptions.go:97-108 | while the topic is not cancelled, once its goroutines have drained, a filtering subscription from the beginning still on its list has been delivered exactly the events all its filters accept, each once or twice |
| `DeliveryConditions.ZeroTwiceCondition` | es/subscriptions.go:128-136 | some continuation of a new subscription from the beginning delivers position 0 twice if and only if event 0 is not stored by then or its fan-out has not run |
| `DeliveryConditions.ZeroTwiceIsReachable` | es/topic.go:286-420 | a run from the start in which a subscription gets the first event twice, once replayed and once live |
| `DeliveryConditions.ZerosByLockOrder` | es/subscriptions.go:110-137 | among what was delivered, position 0 is left out exactly when the sender of position 1 took the lock first, and comes twice exactly when the two senders of position 0 did |
| `DeliveryConditions.ZeroCondition` | es/subscriptions.go:110-137 | once a sender has taken the lock, position 0 has been or can still be delivered before the topic is cancelled if and only if the first sender had position 0 |
| `DeliveryConditions.BlockedCondition` | es/subscriptions.go:110-139 | no continuation delivers anything before the topic is cancelled if and only if the first sender had a position after 1 |
| `DeliveryConditions.ZeroMayBeSkipped` | es/subscriptions.go:128-129 | in every running topic a new subscription from the beginning has a continuation that delivers position 1 first |
| `DeliveryConditions.SkippedForGood` | es/subscriptions.go:110-137 | once position 1 came first, position 0 is not delivered in any continuation |
| `DeliveryConditions.SecondTaskBlocks` | es/subscriptions.go:110-139 | of two tasks of a later position one is delivered at most: the other blocks the subscription until cancellation when it takes the lock |
| `DeliveryConditions.SecondTaskIsReachable` | es/subscriptions.go:110-139 | a run from the start in which the second task of position 1 holds the lock after the first was delivered |
| `DeliveryConditions.OnlyNewJumpsOnce` | es/topic.go:405-414 | the deliveries of an unfiltered only-new subscription are contiguous but for at most one jump; while the reset of the cursor is pending they count up from the start position without any |
| `DeliveryConditions.JumpIsReset` | es/topic.go:405-414 | the jump is the reset: deliveries count up before it, the next one is the number of events stored at the reset, and they are contiguous from there; only position 0 as the very first delivery may come instead when the log then has one event |
| `DeliveryConditions.OldEventCondition` | es/topic.go:302-414 | an event stored before an only-new subscription can still be delivered to it if and only if the fan-outs of it and of all earlier events have not run by then |
| `DeliveryConditions.OldEventIsReachable` | es/topic.go:302-414 | a run in which a subscription to new events only gets an event stored before it was made |
| `Continuations.AtMostOneTask` | es/topic.go:286-420 | when a subscription from the beginning is made, every continuation creates at most one send task for a position if and only if the position is stored by then and its fan-out has run |
| `LiveCompleteness.NewEventsComplete` | es/topic.go:286-322 | an unfiltered subscription still on its list, to new events only or with any start position, has been delivered every event stored after it was made once its goroutines have drained, while the topic is not cancelled |
| `LiveCompleteness.UntilUnsubscribed` | es/topic.go:286-401 | on every path after a Subscribe call without an Unsubscribe call for its subscriber and without cancellation: once its goroutines have drained, the unfiltered subscription has been delivered every event stored since the call |
| `LiveCompleteness.MemberStays` | es/topic.go:325-401 | a subscription stays on its list until its subscriber unsubscribes, whatever else happens |
| `Unsubscribing.UnsubscribedCondition` | es/topic.go:302-401 | after Unsubscribe a live task of an earlier subscription exists in some continuation if and only if it existed, or its goroutine had taken its snapshot of the list, when the call was made |
| `Unsubscribing.StillFedCondition` | es/topic.go:376-420 | after Unsubscribe an earlier subscription can be given a task with an event stored later if and only if its replay has not started |
| `Unsubscribing.NothingStoredLater` | es/topic.go:376-420 | so a subscription to new events only, or one whose replay has started, is never delivered an event stored after its subscriber unsubscribed |
| `Unsubscribing.GoneStep` | es/topic.go:264-420 | every action keeps that an unsubscribed subscription is on no list and that only the tasks it had by then are created or on their way |
| `TopicRuns.PutIsStored` | es/es.go:402-437 | over every run the events of all valid AddEvent calls, each as often as it was passed, are stored, in flight, or dropped because the server's context is done |
| `TopicRuns.CancelEndsSenders` | es/subscriptions.go:97-140 | once its context is done, from every reachable state all senders of a topic, blocked ones too, can leave without delivering anything more |
| `TopicRuns.ServerEndsInflight` | es/es.go:428-440 | once the server's context is done all events in flight can be given up |
| `TopicRuns.ServerDoneTopicDone` | es/topic.go:244-261 | in every run the end of the server is the end of the topic, and only cancelling the server ends it |
| `SubscriptionInvariants.InvReachable` | es/topic.go:264-420 | the inductive invariant over log, pending tasks, cursors and histories holds in every reachable state |
| `SubscriptionInvariants.InvStep` | es/topic.go:264-420 | every one of the sixteen actions keeps that invariant |
| `SubscriptionInvariants.CoverStep` | es/topic.go:302-420 | every action keeps each position covered by a created task or by a goroutine that will create it |
| `SubscriptionInvariants.RecordsStep` | es/subscriptions.go:93-140 | every action keeps cursor and history of each subscription consistent with the tasks that took their turn |
| `TopicLogInvariants.TaskStep` | es/topic.go:295-420 | every action keeps that a goroutine carries the stored event of its position and that each source creates a task once |
| `TopicLogInvariants.LogStep` | es/topic.go:276-295 | every action keeps the conservation of events and the numbering of the log |
| `TopicObject.ProcessedInOrder` | es/topic.go:276-290 | what the processing loop stores are the arriving envelopes in their order, numbered on from the end of the log |
| `TopicObject.RegisterAllKeeps` | es/topic.go:264-299 | receiving any envelopes in flight keeps the topic running and reachable and takes exactly them out of flight |
| `EventServer.EventServer.NodeAt` | es/topic.go:124-136 | in every valid tree a topic's full name is the join of the keys on its path, its name the last key, its parent is there |
| `EventServer.EventServer.ChildLink` | es/topic.go:225-241 | a topic's table holds exactly the topics one level below it |
| `EventServer.EventServer.FoundByFullName` | es/topic.go:124-136 | in every valid tree a topic with a well-formed path is found under its own full name, and no other such topic has that name |
| `EventServer.AddKeepsCanonical` | es/es.go:208-303 | adding a topic keeps all names of the tree well formed if and only if the new name is well placed |
| `EventServer.AddDependsOnSegments` | es/es.go:208-303 | moving leading segments between name and branch changes neither what AddTopic reports nor the tree it leaves |
| `TopicTree.LookupByFullName` | es/topic.go:124-136 | in a tree a topic is found under its own full name if and only if its path is well formed, and then no other topic has that name |
| `TopicTree.QueueAdds` | es/es.go:306-334 | after AddTopicQueue exactly the old topics and every prefix of the queue below the branch are there, old ones unchanged, and looking up branch plus queue succeeds |
| `TopicTree.QueueStep` | es/es.go:318-331 | the next topic of a queue can be added exactly when it is not the first or was not there |
| `TopicTree.QueueKeepsCanonical` | es/es.go:306-334 | AddTopicQueue keeps all names of the tree well formed, for any strings |
| `TopicTree.SegmentTarget` | es/es.go:324-329 | one segment added to a branch goes right below the branch |
| `TopicTree.UnsubscribeUndoes` | es/topic.go:376-401 | unsubscribing restores the tree a non-recursive subscription changed if and only if it was the subscriber's first on the topic |
| `SubscriptionRequests.SubscribedLists` | es/topic.go:325-373 | for every topic of the tree: in reach the subscriber's list is the old one and the new record at its end, out of reach it is the old one; other lists, names and flags never change |
| `SubscriptionRequests.PartlySubscribedLists` | es/topic.go:355-370 | after a failure on the way every topic has either gained the record, if it is in reach, or not changed |
| `SubscriptionRequests.SubscribeAllLists` | es/es.go:443-478 | a whole Subscribe call: every topic's list is the old one followed by the records of the served requests that reach it, in their order, and the call succeeds if and only if all are served |
| `SubscriptionRequests.UnsubscribeAllLists` | es/es.go:481-515 | a whole UnSubscribe call: exactly the subscriber's lists on the topics named before the first bad name are gone, and it succeeds if and only if the names lead to distinct topics that all have one |
| `TopicTree.StartKeepsCanonical` | es/es.go:583-584 | the name of the server topic is well formed, so a start keeps all names of the tree well formed |
| `TopicTree.RemovalGuard` | es/topic.go:174-219 | without recursion a root topic can be removed if and only if none of its subtopics has a subtopic, any other topic if and only if it has no subtopic |
| `TopicTree.RemovalKeepsCanonical` | es/topic.go:185-203 | removing a subtree, or what is below a topic, keeps all names of the tree well formed |
| `Names.SegmentsJoin` | es/es.go:227-240 | splitting and cleaning two names joined by a slash gives the segments of both in order |
| `Names.SegmentsTrim` | es/es.go:311-329 | outer spaces do not change the segments of a name |
| `Names.TrimParts` | es/es.go:153-160 | trimming takes all spaces off both ends of a name and nothing else |
| `Names.SplitPieces` | es/es.go:153-160 | splitting at slashes is undone by joining, and no piece has a slash |
| `Names.SplitAbsolute` | es/es.go:347-348 | splitting a full name at its slashes gives back its segments |
| `Names.SegmentsOfAbsolute` | es/es.go:373-382 | joining well-formed segments with slashes and parsing the result is the identity |
| `Names.FullNameLookup` | es/es.go:152-183 | looking up a topic's own full name leads to its path if and only if the path is made of well-formed segments |
| `Names.FullNamesUnique` | es/topic.go:124-136 | two different well-formed paths have different full names |
| `Names.TargetIsConcatenation` | es/es.go:200-247 | AddTopic puts the topic where the segments of branch and name lead if and only if the name is well placed |
| `Names.TargetDependsOnSegments` | es/es.go:208-240 | moving leading segments between name and branch does not change where the topic goes |
| `Names.CanonicalTarget` | es/es.go:208-247 | the path AddTopic gives a topic consists of well-formed segments if and only if the name is well placed |
| `Names.SlashyLeaf` | es/es.go:214-221 | a single piece followed only by slashes keeps its slash, so the topic never goes where its segments lead |
| `Names.KeyOfAnother` | es/es.go:360-363 | concrete names: the string that looks up one root topic is the key of another |
| `MessageDelivery.CursorsPartition` | ms/mqueue.go:206-222 | in every run a cursor is inside the log and the slices since the last read from the beginning concatenate to exactly the log up to it |
| `MessageDelivery.CursorsNeverDecrease` | ms/mqueue.go:206-222 | within one run of the server a queue only grows at its end and no cursor moves back |
| `MessageDelivery.ChannelCarriesSlice` | ms/mqueue.go:224-242 | a result channel carries a prefix of its slice, all of it once closed, and until the context is done its goroutine can always go on |
| `MessageDelivery.ReceivedExactlyOnce` | ms/mqueue.go:190-245 | a receiver whose channels are closed has received every message up to its cursor once and in order |
| `MessageDelivery.LogIsMerge` | ms/mqueue.go:97-109 | the log interleaves prefixes of the accepted batches, each in its order, over all interleavings |
| `MessageDelivery.AllAcceptedStored` | ms/mqueue.go:171-184 | when the senders have finished the log is a merge of all batches and equals them as a multiset (`GivenIsStored` ties the batches to what callers passed) |
| `MessageAcceptance.GivenAlong` | ms/mserver.go:230-266 | along every run what a queue's senders were given is exactly the messages of the accepted PutMessages calls, call by call, each message with its sender, since the last start |
| `MessageAcceptance.GivenIsStored` | ms/mqueue.go:171-184 | over every run, once the senders have finished and the loop holds nothing, the log has every message of every accepted call as often as it was passed, and those of each call in their order |
| `MessageAcceptance.LogFromGiven` | ms/mqueue.go:97-184 | at any time the log interleaves prefixes of the messages of the accepted calls |
| `MessageAcceptance.GivenStep` | ms/mserver.go:230-303 | only an accepted PutMessages call adds to what a queue was given, only a new start takes it away |
| `MessageDelivery.NilExitNeverTaken` | ms/mqueue.go:98-100 | the loop never leaves by the nil sender, because the server refuses such batches |
| `MessageDelivery.SenderNotStuck` | ms/mqueue.go:87-121 | until the context is done the loop can store what it holds or take the next message of any unfinished sender |
| `MessageObject.LoopReachable` | ms/mqueue.go:87-122 | in a reachable server whose context is done the state a queue's loop leaves is reachable, so what holds in every run holds there |
| `MessageObject.SentReachable` | ms/mqueue.go:224-242 | the state a result channel's goroutine leaves is reachable; it stops early only with a done context |
| `MessageProtocol.InvReachable` | ms/mqueue.go:87-245 | the invariant over log, request in hand, batches, cursors and channels holds in every reachable state |
| `MessageProtocol.InvStep` | ms/mserver.go:189-303 | every action of the server and of its queues keeps that invariant |
| `MessageQueue.MergeMultiset` | ms/mqueue.go:97-109 | a merge has every element as often as its parts together |
| `MessageQueue.MergeKeepsOrder` | ms/mqueue.go:97-109 | each part of a merge is a subsequence of it |
| `ServiceLifecycle.StartsBounded` | s2/s2.go:219-246 | in every run a service is started at most as often as ExecService succeeded plus ResumeService sent |
| `ServiceLifecycle.ErrorIffFailed` | s2/s2.go:104-110 | an error is stored exactly while the state is Failed |
| `ServiceLifecycle.OneShotLifecycle` | s2/s2.go:352-391 | without a stop channel and with at most one successful ExecService the state only moves Registered, Ready, Running, then Ended or Failed, and the service is started at most once |
| `ServiceLifecycle.ForwardCondition` | s2/s2.go:352-391 | without a stop channel the state only moves forward in every continuation without another successful ExecService if and only if at most one has succeeded |
| `ServiceLifecycle.SettledForGood` | s2/s2.go:219-236 | a finished service with no goroutine on its way is never started again without a ResumeService call, even if another request to run it is still pending |
| `ServiceLifecycle.TwoExecsGoBack` | s2/s2.go:371-382 | a concrete run in which a second ExecService takes a running service back to Ready |
| `ServiceLifecycle.JammedForGood` | s2/s2.go:431-453 | a ResumeService waiting to send while the loop cannot receive keeps lock and loop as they are in every continuation |
| `ServiceLifecycle.JammedIsReachable` | s2/s2.go:431-453 | that happens already when a service is resumed on a server that was never started |
| `ServiceLifecycle.HistoryGrows` | s2/s2.go:104-110 | a registered service stays registered and its history of states only grows |
| `ServiceLifecycle.InvStep` | s2/s2.go:203-453 | every action keeps the account of tasks, starts, execs and resumes of each service |
| `ServiceLifecycle.ResumeGoesOn` | s2/s2.go:431-453 | a ResumeService waiting to send goes on whenever it is not jammed: at once, or after the loop has checked the id it holds |
| `ServiceAccount.CallsAddUp` | s2/s2.go:203-453 | over every run: one Ready for each successful ExecService whose goroutine has run and for each resume, one Running per start, and every start and every successful StopService of a stoppable service is still running, on its way, given up, or has left Ended or Failed exactly once |
| `ServiceAccount.StopEnds` | s2/s2.go:394-425 | StopService for a running service with a stop channel has a continuation that appends exactly Ended, without a new start |
| `ServiceAccount.NotStoppedUncalled` | s2/s2.go:394-425 | without a StopService call a service never gets a stopper |
| `ServiceAccount.ExecStarts` | s2/s2.go:352-391 | ExecService for a registered service on a server whose loop waits has a continuation that appends exactly Ready, Running with one more start |
| `ServiceAccount.ResumeStarts` | s2/s2.go:431-453 | ResumeService for a stoppable service that is not running has such a continuation too |
| `ServiceAccount.ReturnEnds` | s2/s2.go:246-272 | a running service whose Run returns appends exactly Failed with an error and Ended without |
| `WaitVerdict.TrueMeansFinished` | s2/s2.go:491-547 | when the wait answers true, every service the snapshot found running has since been Ended or Failed and its own waiter has seen that state, whatever the other calls did meanwhile |
| `WaitVerdict.LookArms` | s2/s2.go:550-579 | a waiter that has not answered and looks at a service in state Ended, and one in state Failed, may send true whenever there is room |
| `WaitVerdict.CanAnswerTrue` | s2/s2.go:491-579 | when the snapshot is done, nobody has cancelled and every service found running has ended or failed, some continuation answers true |
| `WaitVerdict.NoSendOnClosed` | s2/s2.go:538-540 | the accumulator channel is closed only after every waiter's single send: nobody sends on a closed channel |
| `WaitVerdict.FalseMeansCancelled` | s2/s2.go:522-547 | the answer is false only after the caller's context is done |
| `WaitVerdict.WaitInvStep` | s2/s2.go:491-579 | every step of the call, its goroutines and the server keeps the tally of waiters, answers and buffered answers |
| `ServiceObject.HandleAllKeeps` | s2/s2.go:203-275 | receiving from any possible sequence of senders, looking up and checking leads from reachable to reachable states |
| `DataItem.ReadsConcatenate` | internal/ds/dataitem.go:43-57 | for any sizes the pieces read concatenate to the data up to the cursor, and the cursor is where the total size leads |
| `DataItem.SplitOfReads` | internal/ds/dataitem.go:43-57 | two runs of reads with the same total deliver the same bytes |
| `TopicObject.FilterEnvelope` | es/subscriptions.go:146-179 | for any order in which the filter tasks take the lock the envelope is returned if and only if every filter accepts it, despite the early exit |
| `Events.FilterMeans` | es/subscriptions.go:186-219 | each filter accepts exactly the events whose whole name, or a part of whose name or data, is the one given |
| `TopicObject.Topic.AddEvent` | es/es.go:411-437 | no envelope and no change without an event or a sender; otherwise exactly the caller's envelope is in flight |
| `TopicObject.Topic.Register` | es/topic.go:276-295 | an envelope in flight is received: rejected without a trace in the log, or stored at the end with its index and one fan-out goroutine for it |
| `TopicObject.Topic.ProcessTopic` | es/topic.go:264-299 | the loop over any sequence of envelopes in flight, until it finds its context done, leads from reachable to reachable states |
| `TopicObject.Topic.Subscribe` | es/topic.go:325-356 | fails on a stopped topic without a change; otherwise one more subscription, at the end of the subscriber's list, and its starting goroutine |
| `TopicObject.Topic.StartSub` | es/topic.go:405-420 | resets the cursor to the last event or creates the replay tasks |
| `TopicObject.Topic.SendEvent` | es/subscriptions.go:110-140 | sends if and only if the guard holds on entry and the context lasts; then in the first pass of the loop, otherwise it spins until the context is done; either way it leaves the lock |
| `TopicObject.Topic.SendFilteredEvent` | es/subscriptions.go:97-108 | delivers if and only if all filters accept and the consumer takes the envelope before the context is done, without touching the cursor |
| `EventServer.EventServer.constructor` | es/es.go:518-547 | an empty, stopped server satisfies the invariant |
| `EventServer.EventServer.FindTopic` | es/es.go:152-183 | finds a topic if and only if the path of the name's segments is in the tree, and then exactly that topic |
| `EventServer.EventServer.HasTopic` | es/es.go:140-146 | true if and only if that path is in the tree |
| `EventServer.Topic.HasSubtopic` | es/topic.go:225-241 | the recursive walk finds exactly the topic on the path below this one; terminates |
| `EventServer.EventServer.AddTopic` | es/es.go:198-303 | fails without a change (stopped, empty name, missing branch, duplicate, in the code's order) or adds exactly one running topic and keeps the invariant and all other topics |
| `EventServer.Topic.AddSubtopic` | es/topic.go:109-164 | adds under the last topic of base, or fails without a change exactly when that topic is missing or has the name |
| `EventServer.EventServer.AddTopicQueue` | es/es.go:306-334 | all or nothing: fails without a change exactly when the branch is missing, the server is stopped or the first topic exists; otherwise the whole path and nothing else is added |
| `EventServer.EventServer.AddPieces` | es/es.go:318-331 | the loop of AddTopicQueue: after the first topic no later one can fail |
| `EventServer.EventServer.RemoveTopic` | es/es.go:337-397 | all or nothing for a topic named by its key: an error changes nothing, success removes and cancels exactly the subtree; for any other spelling of a root topic what is below it goes, it stays cancelled in the tree, and the string's own entry, if any, leaves the table |
| `EventServer.EventServer.RemoveRoot` | es/es.go:348-371 | a root topic is removed if and only if the caller's string is its key; otherwise everything below it goes, it stays cancelled, and the string's own entry, if any, leaves the table |
| `EventServer.Topic.RemoveSubtopics` | es/topic.go:171-206 | guarded recursive removal of one or all subtopics: refused without a change, or exactly those subtrees leave and every topic that left is cancelled; terminates on the subtree |
| `EventServer.Topic.RemoveChosen` | es/topic.go:185-203 | the loop over the table removes exactly the chosen subtrees |
| `EventServer.Topic.RemoveOne` | es/topic.go:190-199 | one round: everything below the child, then the child, cancelled |
| `EventServer.Topic.CouldBeDeleted` | es/topic.go:211-219 | true if and only if there is no topic two levels below |
| `EventServer.BranchName` | es/es.go:374-377 | the loop that rebuilds the parent's absolute name |
| `EventServer.Topic.Subscribe` | es/topic.go:325-373 | fails exactly when some topic within reach does not run; otherwise the subscriber's list gains exactly the request's record at its end on the target and, if recursive, on every topic at most depth levels below, and nothing else changes; a failure leaves a part of that |
| `EventServer.Topic.Unsubscribe` | es/topic.go:376-401 | exactly the subscriber's list leaves this topic, or the call fails without a change |
| `EventServer.EventServer.Subscribe` | es/es.go:443-478 | serves the requests in order up to the first without a name, a channel or an existing topic; on every topic the list is then the old one followed by the records of the served requests that reach it |
| `EventServer.EventServer.UnSubscribe` | es/es.go:481-515 | serves the names in order up to the first bad one; succeeds if and only if they lead to distinct topics on all of which the subscriber has a list, and then exactly those lists are gone |
| `EventServer.EventServer.Run` | es/es.go:553-590 | a second start is refused; a clean start leaves exactly the server's own topic; a start on an old table adds it, or reports a duplicate after starting the server and leaves the table as it is |
| `EventServer.EventServer.AddEvent` | es/es.go:402-428 | the errors in the code's order; otherwise the topic on the path of the name and a checked envelope for it |
| `EventServer.EventServer.AddRoot` | es/es.go:242-279 | a root topic enters the table running, or the call fails without a change exactly when its key is taken |
| `Names.FindLeaf` | es/es.go:214-221 | the backward loop stops at the last nonempty piece, or at piece 0 |
| `Names.ExtendBranch` | es/es.go:227-231 | the forward loop appends exactly the segments of the leading pieces to the branch |
| `Names.Normalize` | es/es.go:208-231 | name and branch after normalisation: the topic's own name, and all segments above it |
| `Names.Parse` | es/es.go:153-160 | the parsing loop yields the trimmed nonempty pieces |
| `MessageObject.MQueue.Loop` | ms/mqueue.go:87-122 | the loop takes from the batches in any possible order, up to a request without a sender, and clears the running flag only when the context ended it |
| `MessageObject.MQueue.PutMessages` | ms/mqueue.go:161-187 | a stopped queue refuses without a change; otherwise exactly one more sender, with all messages the caller passed |
| `MessageObject.MQueue.GetMessages` | ms/mqueue.go:190-244 | selects the log from the cursor, or from the beginning, and moves the receiver's cursor, and no other, to its end |
| `MessageObject.MQueue.SendSlice` | ms/mqueue.go:224-242 | what the consumer gets is a prefix of the slice; the channel is closed if and only if it is all of it |
| `MessageObject.MessageServer.OpenQueue` | ms/mserver.go:256-263 | a missing queue is created started and empty; no other queue changes |
| `MessageObject.MessageServer.Run` | ms/mserver.go:189-218 | a second start is refused; a start forgets all queues |
| `MessageObject.MessageServer.PutMessages` | ms/mserver.go:230-266 | the checks in the code's order, each error without a change; otherwise the trimmed queue, created if missing, has one more sender with all messages passed, and only that queue changed |
| `MessageObject.MessageServer.GetMessages` | ms/mserver.go:275-303 | the checks in the code's order, on the untrimmed name, each error without a change; otherwise the slice from the cursor, the cursor at the end, and only that queue changed |
| `ServiceObject.ServiceServer.AddService` | s2/s2.go:304-348 | refused without a service; otherwise one fresh Registered record, with an exec goroutine if asked and the server runs |
| `ServiceObject.ServiceServer.ExecService` | s2/s2.go:352-391 | the errors in the code's order, without a change; success only from Registered, with one more exec goroutine |
| `ServiceObject.ServiceServer.StopService` | s2/s2.go:394-425 | the errors in the code's order, without a change; success starts exactly one stopper if there is a stop channel and none otherwise, and leaves all states alone |
| `ServiceObject.ServiceServer.ResumeService` | s2/s2.go:431-453 | the errors in the code's order; otherwise Ready, and the id handed to a waiting loop or the call left in its send inside the lock |
| `ServiceObject.ServiceServer.Loop` | s2/s2.go:203-275 | the loop over any possible sequence of senders takes their sends, launches only Ready services and clears the running flag when it finds its context done, from reachable to reachable states |
| `ServiceObject.ServiceServer.Scan` | s2/s2.go:491-505 | the snapshot starts exactly one waiter for every running service and counts them |
| `ServiceObject.Sum` | s2/s2.go:522-544 | says true and closes the channel if and only if the first srCount answers arrived and are all true |
| `ServiceObject.WaitForSvc` | s2/s2.go:550-579 | a waiter ends in the first round in which its context is done, or somebody takes an answer and it has read Ended or Failed by then; it answers true exactly in the second case |
| `ServiceObject.ServiceServer.CheckGot` | s2/s2.go:219-236 | a received id is dropped unless its service is registered and Ready; then one launch |
| `ServiceObject.ServiceServer.ServiceTask` | s2/s2.go:236-272 | a launched service runs once and ends Failed with an error or Ended without, exactly as Run returned |
| `ServiceObject.ServiceServer.ExecTask` | s2/s2.go:381-388 | the exec goroutine sets Ready and has a send pending |
| `ServiceObject.ServiceServer.StopTask` | s2/s2.go:413-421 | a stopper whose signal is taken sets Ended |
| `DataItem.DataItem.NewItem` | internal/ds/dataitem.go:19-26 | a fresh item holds its own copy of the buffer and starts at 0 |
| `DataItem.DataItem.Data` | internal/ds/dataitem.go:29-31 | a fresh copy of all the data wherever the cursor is |
| `DataItem.DataItem.Copy` | internal/ds/dataitem.go:34-39 | a fresh item with the same data that starts at 0 |
| `DataItem.DataItem.Read` | internal/ds/dataitem.go:43-57 | fills the buffer from the cursor, leaves its rest, reports the end if and only if the buffer is nonempty and all is consumed, and progresses while data remains |
| `DataItem.DataItem.ReadPieces` | internal/ds/dataitem.go:43-57 | a run of reads of any sizes delivers exactly the specified pieces, and its last read reports the end exactly when all is consumed |
| `DataItem.DataItem.ReadAll` | internal/ds/dataitem.go:43-57 | reading until the end terminates for any nonzero buffer sizes with all remaining bytes |
| `DataItem.RoundTrip` | internal/ds/dataitem.go:19-57 | bytes in, bytes out: after a partial read, and from a copy |

## Left out

- EventServer.EventServer.Run: after a start without cleaning on a table with stopped topics the tree invariant is not claimed, because the code leaves them stopped on a running server.
- EventServer.EventServer.RemoveTopic: after a root topic was removed by a string other than its key the tree invariant is not claimed, because that topic stays in the table stopped or another one is missing from it.
- TopicObject.Topic.AddEvent: the checks that the server runs and that the topic exists belong to the server and are those of `EventServer.AddEvent`.
- TopicObject.Topic.SendEvent: handing an envelope to the consumer is one step with leaving the lock; a consumer that never receives is a holder that is never scheduled.
- A topic's log and subscriptions (`TopicObject.Topic`) and its place in the tree (`EventServer.Topic`) are two classes; subscriptions are values in a list of records, named by their place, not heap objects.
- A positive start position beyond `ReplayNumbering`: the code does not deliver coherently there, and past the end of the log it panics.
- A call that looks at a running flag in one locked section and acts in a later one is one step where the flag can only fall in between: subscribing to and unsubscribing from a topic, starting a server, reading messages. `ExecService` and `StopService` of the service server take what that look gave as a parameter.
- While `startSub` waits for a subscription's lock it holds the topic's lock; the model lets other steps go on, which only adds interleavings.
- Tree operations under concurrent mutation of the tree: each is one sequential call here, although the code takes its locks per field access.
- Nil message pointers, and messages changed by their owner after they were put.
- Registration times, generated ids, log output, error texts, `String` methods, statistics (`Stat`, `Queues`, `RootTopicsInfo`).
- Events the servers emit about themselves: they have no effect on the topic tree once `Run` has set the server's own topic.
- `WaitForQueue` and the wait for a single service beyond the waiter's loop: polling without further state.
- Unconditional delivery, absence of deadlock and data-race freedom: the spin and the sends inside locks rule them out as claims; `BlockedIsReachable` and `JammedIsReachable` show it.
- The gRPC layers, generated code, `s2/services.go` and `srvbus.go`: plumbing around the three servers.
