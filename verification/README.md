# Verified model of the OTNS simulation core

OTNS simulates Thread networks in virtual time. A dispatcher written in Go drives one process
per node in lock-step over sockets, and each node process, written in C, runs a timed radio
driver. This project models that core in Dafny and proves what it promises.

## What is modelled

- **Dispatcher and nodes.** `Dispatcher` gives the dispatcher's handlers as functions of its
  state (node records, alarms, event queue, alive set, sockets). `Causality` proves what every
  handler keeps. `LockStep` adds the node processes, with drifting clocks and FIFO sockets in
  both directions, and proves its theorems for every interleaving. `WakeUps` proves on top of it
  that no queued wake-up is passed over, and `Delivery` who gets which message and what the
  messages of nodes become. `Instant` and `InstantRuns` prove that one simulated
  instant before Ever always finishes. `Simulator` is the dispatcher object with
  its loops, built on the objects of `SendQueue` and `AlarmMgr`, which in turn are proved
  against the functions of `Heap` (Go's `container/heap` over the repository's own `Less` and
  `Swap`). `NodeOrder` and `Registry` cover the sorted node list and the address maps.
- **Radio models.** `Interference` is the record of overlapping transmissions, `Airtime` the
  per-channel statistics.
- **Radio driver.** `Radio` gives the substate machine as functions, `RadioDriver` is the object
  with the C handlers, `RadioProgress` proves that it never sticks, `RadioVerdict` that every
  frame gets its verdict, `RadioCalls` what the calls of the stack lead to; `AckExchange` composes
  two radios with the radio model's events, and `AckFailure` says when their exchange can fail.
- **Kernels on the same path.** `DriftClock`, `FailureCtrl`, `EventWire`, `NodeWire`,
  `UdpChecksum`, `Entropy`; `SimTypes` holds integer widths and constants.

Code that updates fields in place is a class whose methods are proved against functions of the
old state; the theorems are lemmas about those functions and about whole runs. Where a method
has no result, its contract equates the new abstract state with such a function.

What cannot be computed here is a parameter or a free choice of the environment: the wall clock
(any time that never falls below the simulated one), which nodes a frame reaches and whether it
is corrupted, aborted starts, broken sockets, random offsets, frame and acknowledgment lengths,
and everything that the OpenThread stack does when it is called back.

## Where the code differs from what one would expect

Each of these is a lemma with the exact condition under which the expected property holds.

- The generator accepts the seed -2 and then returns the same value forever (`LehmerSequence`).
- `Deserialize` counts the bytes after the header in 16 bits, so a buffer of 65555 bytes hides a
  complete event (`LongBufferHidesEvent`).
- A millisecond timer alone oversleeps by the microseconds already spent in the current
  millisecond (`MilliTimerIsLate`).
- A node that asks for a delay of 2^31 - 1 microseconds or more is given no alarm for that
  time (`AlarmIsWhatWasAsked`).
- An instant at `Ever` meets the cleared alarms, which are also `Ever`, and never ends
  (`InstantAtEverNeverEnds`); every earlier instant does (`InstantIsBounded`). An alarm that is
  not after its node's clock is found again forever (`StuckAlarm`); no run before `Ever` has one.
- A failure schedule set while the radio has failed violates the controller's own assertions
  (`ScheduleOnWorkingRadio`); an older announcement can swallow the first wake-up
  (`StaleAnnouncementLosesWake`); a node that is run late shifts the schedule (`AnchorIsSetTime`).
- Disabling a deleted node's events keeps the queue ordered by time but can break the order of
  node ids (`DisablingKeepsTies`).
- A node that starts on a second channel loses its record of interferers on the first
  (`SecondChannelLosesInterferer`); when the record is right all the same, `RecordIsExactIff` and
  `SecondChannelReplacesRecord` say exactly. Deleting a node that transmits on a channel its radio has left
  keeps that channel counted as busy (`DeleteIsExact`, `LeakedTransmitterCounts`).
- At bitrates so high that a duration rounds to zero, a frame can end before it starts, and the
  sender then gets no acknowledgment (`InstantFrameIsMissed`, `InstantAckIsMissed`); on a clear
  channel an exchange can go without acknowledgment if and only if a duration rounds to zero or
  the reply is not the acknowledgment (`NoAckIff`), and the event queue does hand out its events
  in that order (`QueueSwapsInstantFrame`). Such an acknowledgment has no
  deadline (`FastAckHasNoDeadline`), but the second pass of the same message ends it
  (`FastAckEndsAtOnce`).
- A sender that hears the start of its acknowledgment but not its end reports that there was none;
  a frame that it hears before the spacing is over makes it report again (`LateFrameIsJudged`).
  But for such verdicts, which `StaleIff` characterizes, every frame gets exactly one
  (`OneVerdictPerFrame`).
- A frame that cannot be secured is not sent and its stack is told nothing; the radio samples the
  channel for it again and again (`UnsecuredFrameRetries`).
- The spacing after an unacknowledged frame is taken from the frame in the transmit buffer one
  turnaround time later, which may be the next one (`SpacingAfterFrame`).
- An extended address that another node has breaks the address map (`SetExtAddrKeeps`).

## Model

| member | source | states |
|---|---|---|
| LockStep.RunKeeps | dispatcher/dispatcher.go:449-603 | in every run of dispatcher and nodes, every state is causal, every connected node's messages, clock and record agree, and a node counted as sleeping is at rest |
| LockStep.TimeMovesInLockStep | dispatcher/dispatcher.go:466-490 | simulated time moves only forward and only when no node is alive; every connected node has then read and answered its latest message id, sleeps, and its clock is its drifted share of the dispatcher's record, which is not ahead of dispatcher time |
| LockStep.ZeroDriftClock | ot-rfsim/src/system.c:135-204 | without drift, creation time plus the node's own clock equals the record |
| LockStep.SleepLinked | ot-rfsim/src/event-sim.c:42-52 | a sleep message tagged with the latest id is the last thing the node said, so hearing it leaves the node at rest; one with an older id leaves it alive |
| LockStep.ReadLinked | ot-rfsim/src/system.c:190-195 | reading a message moves the node's clock by its delay and keeps ids and times in step |
| LockStep.SentLinked | dispatcher/Node.go:187-225 | sending a message adds the next id and exactly the delay that brings the node to the present |
| LockStep.AlarmIsWhatWasAsked | dispatcher/dispatcher.go:538-547 | a sleeping connected node's alarm is its clock plus the delay it asked for if and only if that delay is below the largest 32-bit integer |
| LockStep.WakesWhenAsked | dispatcher/dispatcher.go:697-704 | an alarm that fires for a sleeping node sends it exactly the delay it asked for |
| LockStep.NothingIsLate | dispatcher/dispatcher.go:649-719 | nothing pending is ever in the past, and every event and alarm is processed at its own time |
| LockStep.GoIsExact | dispatcher/dispatcher.go:449-498 | an uncancelled go ends at start plus duration, capped at Ever, with nothing due at or before that time and no node alive |
| LockStep.EventsReachTheirNode | dispatcher/dispatcher.go:1479-1502 | an event processed for a node was made for that very node, not for an earlier one with the same id |
| LockStep.PausedTimeStands | dispatcher/dispatcher.go:449-498 | between the end or the cancellation of a go and the next one time stands still |
| LockStep.StepKeeps | dispatcher/dispatcher.go:503-603 | each of the sixteen kinds of steps of dispatcher and nodes keeps the invariant |
| InstantRuns.InstantIsBounded | dispatcher/dispatcher.go:692-716 | in every run, the alarms and events processed in one instant plus the work left never exceed the work it began with |
| InstantRuns.InstantGoesOn | dispatcher/dispatcher.go:694-716 | until nothing is due, an alarm or event can be processed |
| InstantRuns.InstantAtEverNeverEnds | dispatcher/dispatcher.go:692-716 | in every run, an instant at Ever in which some alarm is cleared stays unfinished for good: the alarm remains due whatever is processed |
| Instant.EventWork | dispatcher/dispatcher.go:765-804 | before Ever, processing a due event strictly decreases the weighted count of due events and alarms, whatever it spawns at the same time |
| Instant.EventLoad | dispatcher/dispatcher.go:765-804 | at every time it strictly decreases the weighted count of due events |
| Instant.AlarmWork | dispatcher/dispatcher.go:894-913 | so does processing a due alarm |
| Instant.CommStartLoad | radiomodel/radiomodelMutualInterference.go:204-250 | the events that a frame's start spawns weigh less than the start |
| Instant.TxDoneLoad | radiomodel/radiomodelMutualInterference.go:252-282 | the events that a frame's end spawns weigh less than the end |
| Instant.SendFrameLoad | dispatcher/dispatcher.go:983-1075 | dispatching a frame adds no due event but at most one log per node |
| Instant.StuckAlarm | dispatcher/dispatcher.go:897-901 | processing a due alarm changes something if and only if it lies after the node's clock |
| WakeUps.NotPassedOver | dispatcher/dispatcher.go:1727-1735 | in every run, while a wake-up is queued the node is not past its time; it leaves the queue only by the node's deletion or by being processed, and a connected node is then at exactly that time |
| Delivery.FrameReaches | dispatcher/dispatcher.go:983-1075 | a dispatched start or end of a frame gives every other node that it reaches, that is connected and works, exactly one message, which brings it to the present; the sender and all nodes out of reach, failed or starting are left alone; a failed sender reaches nobody |
| Delivery.OwnEventReaches | dispatcher/dispatcher.go:768-804 | every other dispatched event reaches the node it names, and no other |
| Delivery.HearingQueues | dispatcher/dispatcher.go:548-552 | in every run, what a node tells about an event queues exactly that event for the present, for the node itself only if it comes from the host, and sends no message |
| Delivery.DeadlineIsKept | dispatcher/dispatcher.go:1727-1735 | in every run, from the moment a node reports a radio deadline, the report is still to be taken at the same time, or a wake-up for exactly the deadline is queued, or has been processed |
| Delivery.StartIsModelled | radiomodel/radiomodelMutualInterference.go:204-250 | in every run, a start of a frame that was heard is taken at that time, adds what the radio model posts to the queue, and sends no message |
| Delivery.HostMessageArrives | dispatcher/dispatcher.go:594-598 | in every run, a message from the host reaches its node as exactly one message, and no other node |
| Delivery.EventWaits | dispatcher/dispatcher.go:708-712 | in every run, a queued event stays until it is taken at its own time or its node is deleted |
| Delivery.CommandArrives | dispatcher/dispatcher.go:894-913 | a command reaches a connected node as a message, always if forced, and otherwise if the node is not at the present yet; other nodes are left alone |
| Delivery.NodeBegins | dispatcher/dispatcher.go:1271-1302 | a new node starts at the present with nothing due, nothing to read, and is waited for |
| Delivery.NodeIsLost | dispatcher/dispatcher.go:582-587 | a lost node is not waited for and has nothing due; other nodes are left alone |
| Delivery.MessageRunsFailures | dispatcher/Node.go:201-211 | a message that moves a node's time runs its failure controller, and the wake-up it asks for is queued |
| Causality.AddNodeKeeps | dispatcher/dispatcher.go:1271-1302 | adding a node keeps alarm keys, alive ids, node list, queue ownership and causality |
| Causality.DeleteNodeKeeps | dispatcher/dispatcher.go:1479-1502 | so does deleting one, after which no queued event names it |
| Causality.SendKeeps | dispatcher/Node.go:187-225 | so does sending a message, including the failure wake-up it may queue |
| Causality.AdvanceNodeKeeps | dispatcher/dispatcher.go:894-913 | so does moving a node's time |
| Causality.HandleSleepKeeps | dispatcher/dispatcher.go:538-547 | so does hearing that a node sleeps for a positive delay |
| Causality.HandleQueuedKeeps | dispatcher/dispatcher.go:548-552 | so does queueing a node's radio event |
| Causality.HandleDisconnectKeeps | dispatcher/dispatcher.go:582-587 | so does losing a node |
| Causality.ProcessEventKeeps | dispatcher/dispatcher.go:765-804 | so does processing any event at its time |
| Causality.AdvanceTimeKeeps | dispatcher/dispatcher.go:1370-1380 | so does advancing time to no later than the next alarm or event while no node is alive |
| Causality.DeadlineIsQueued | dispatcher/dispatcher.go:1727-1735 | a reported radio deadline becomes an event for exactly that time |
| Causality.WakeRunsNode | dispatcher/dispatcher.go:770-771 | when that event is processed the node is moved to its time, or is there already |
| Simulator.Simulator.constructor | dispatcher/dispatcher.go:160-197 | the new dispatcher has no nodes and nothing pending |
| Simulator.Simulator.AddNode | dispatcher/dispatcher.go:1271-1302 | the new state is that of the model's addition |
| Simulator.Simulator.DeleteNode | dispatcher/dispatcher.go:1479-1502 | the new state is that of the model's deletion, with the node's events disabled in place |
| Simulator.Simulator.SendEvent | dispatcher/Node.go:187-225 | message id, delay, node time, alarm, failure wake-up and alive set are those of the model's send |
| Simulator.Simulator.AdvanceFailures | dispatcher/Node.go:201-211 | the failure controller is re-evaluated when time moved, and its wake-up is queued |
| Simulator.Simulator.AdvanceNodeTime | dispatcher/dispatcher.go:894-913 | no message if the node is there already, only a cleared alarm if it is not connected |
| Simulator.Simulator.HandleEvent | dispatcher/dispatcher.go:503-603 | a message of a known node has the model's effect, one of an unknown node none |
| Simulator.Simulator.OnSleep | dispatcher/dispatcher.go:538-547 | alarm and alive set after a sleep message |
| Simulator.Simulator.OnQueued | dispatcher/dispatcher.go:548-552 | the event is queued at the present |
| Simulator.Simulator.OnDisconnect | dispatcher/dispatcher.go:582-587 | a lost node is neither alive nor has an alarm |
| Simulator.Simulator.SendRadioFrame | dispatcher/dispatcher.go:917-1038 | the loop over the node list has the model's effect on all nodes that hear the frame |
| Simulator.Simulator.SendOneFrame | dispatcher/dispatcher.go:1044-1075 | its effect on one node, failed, disconnected or unreachable ones included |
| Simulator.Simulator.RadioModelEvent | radiomodel/radiomodelMutualInterference.go:204-282 | which events the radio model posts for a frame's start and end and for a channel sample |
| Simulator.Simulator.ProcessOne | dispatcher/dispatcher.go:765-804 | the effect of an event is the model's, and the invariant holds after it |
| Simulator.Simulator.ProcessInstant | dispatcher/dispatcher.go:692-719 | the states passed through follow each other by processing the next alarm or event; the loop ends with nothing due left, and hangs only at Ever |
| Simulator.Simulator.ProcessNextEvents | dispatcher/dispatcher.go:649-719 | time moves exactly to where the wall clock is if that is before the next alarm or event and the pause; otherwise exactly to the next alarm or event if that is no later than the pause, and at least one is processed and none left due; otherwise nothing is left up to the pause; an instant at Ever may not end |
| Simulator.Simulator.RecvEvents | dispatcher/dispatcher.go:613-645 | the messages heard have the model's effect, in order |
| Simulator.Simulator.Go | dispatcher/dispatcher.go:449-498 | for every duration, a finished run ends exactly at start plus duration, capped at Ever, with nothing due and no node alive; a cancelled one pauses where it is; one that hangs does so at Ever; every round is one of the main loop |
| Simulator.Simulator.OneRound | dispatcher/dispatcher.go:466-490 | the messages are handled in order and, if no node is alive, time and events advance as the wall clock allows |
| Simulator.GoEnds | dispatcher/dispatcher.go:466-490 | with the wall clock past the pause and more quiet rounds than microseconds to it, a go finishes or hangs at Ever, unless some round finds a node alive |
| Simulator.GoMovesOn | dispatcher/dispatcher.go:466-490 | every quiet round but the first moves time |
| Simulator.StepShrinksWork | dispatcher/dispatcher.go:694-716 | each iteration of that loop leaves less work |
| NodeOrder.Reconstruct | dispatcher/dispatcher.go:284-294 | the node list is the sorted sequence of the node ids |
| NodeOrder.SortedIdsAre | dispatcher/dispatcher.go:284-294 | that sequence is strictly ascending and holds exactly the ids |
| Registry.RegistryIsConsistent | dispatcher/dispatcher.go:1304-1322 | in every run with unique extended addresses, both address maps are exact inverses of the node fields, without repetitions |
| Registry.LookupIsExact | dispatcher/dispatcher.go:1304-1322 | in every run with unique extended addresses, each map leads from an address to exactly the nodes that last told it was theirs |
| Registry.SetExtAddrKeeps | dispatcher/dispatcher.go:1574-1585 | setting an extended address keeps that, and its assertion holds, if and only if no other node has the address |
| Registry.SetRloc16Keeps | dispatcher/dispatcher.go:1304-1322 | setting a short address keeps it |
| Registry.DeleteNodeKeeps | dispatcher/dispatcher.go:1488-1494 | deleting a node keeps it |
| Registry.ListContains | dispatcher/rloc16_map.go:50-57 | tells exactly whether the node is listed |
| Registry.RemoveFromList | dispatcher/rloc16_map.go:59-67 | removes the first occurrence and keeps the order |
| Registry.AddressBook.RemoveRloc16 | dispatcher/rloc16_map.go:36-41 | the list without the node; both assertions hold |
| Registry.AddressBook.AddRloc16 | dispatcher/rloc16_map.go:43-48 | the list with the node at its end; both assertions hold |
| Registry.AddressBook.SetNodeRloc16 | dispatcher/dispatcher.go:1304-1322 | the new maps, still inverse |
| Registry.AddressBook.OnStatusPushExtAddr | dispatcher/Node.go:334-343 | the new maps, still inverse; all assertions hold |
| Registry.AddressBook.Delete | dispatcher/dispatcher.go:1488-1494 | the new maps, still inverse |
| SendQueue.RunsStayOrdered | dispatcher/send_queue.go:44-100 | after any run the root has the least timestamp; without disabling it is the lexicographic minimum |
| SendQueue.RunsConserveEvents | dispatcher/send_queue.go:57-100 | what was added is what was popped plus what is queued |
| SendQueue.DisablingKeepsTimeOrder | dispatcher/send_queue.go:90-96 | overwriting node ids in place keeps the order by time |
| SendQueue.DisablingKeepsTies | dispatcher/send_queue.go:90-96 | it keeps the order of node ids exactly when no disabled event has a parent of the same time with another node id |
| SendQueue.DisablingCanBreakTies | dispatcher/send_queue.go:90-96 | a queue of two events whose order it breaks |
| SendQueue.Queue.Add | dispatcher/send_queue.go:84-88 | a heap push that keeps the events and both orders |
| SendQueue.Queue.PopNext | dispatcher/send_queue.go:98-100 | removes exactly a minimum |
| SendQueue.Queue.NextTimestamp | dispatcher/send_queue.go:68-74 | the least timestamp, or Ever if empty |
| SendQueue.Queue.DisableEventsForNode | dispatcher/send_queue.go:90-96 | the loop hands every event of the node to no node and changes nothing else |
| AlarmMgr.Manager.Swap | dispatcher/alarm_mgr.go:53-61 | swaps two entries and keeps every index equal to its position |
| AlarmMgr.Manager.HeapPush | dispatcher/alarm_mgr.go:63-67 | container/heap Push on the indexed slice |
| AlarmMgr.Manager.HeapRemove | dispatcher/alarm_mgr.go:69-74 | container/heap Remove on the indexed slice |
| AlarmMgr.Manager.AddNode | dispatcher/alarm_mgr.go:91-101 | the map of alarms gains one entry at Ever |
| AlarmMgr.Manager.SetTimestamp | dispatcher/alarm_mgr.go:107-115 | the map changes in this node's entry only |
| AlarmMgr.Manager.SetNotified | dispatcher/alarm_mgr.go:103-105 | that entry becomes Ever |
| AlarmMgr.Manager.GetTimestamp | dispatcher/alarm_mgr.go:117-122 | the node's entry |
| AlarmMgr.Manager.NextAlarm | dispatcher/alarm_mgr.go:124-130 | an entry that no other precedes, or none if there are no nodes |
| AlarmMgr.Manager.NextTimestamp | dispatcher/alarm_mgr.go:132-138 | the minimum over all nodes, or Ever |
| AlarmMgr.Manager.DeleteNode | dispatcher/alarm_mgr.go:140-145 | the map loses this node's entry only |
| Heap.PushKeepsHeap | dispatcher/send_queue.go:84-88 | sift-up restores the heap and keeps the multiset of entries |
| Heap.PopKeepsHeap | dispatcher/send_queue.go:98-100 | so does swapping the root out and sifting down |
| Heap.FixKeepsHeap | dispatcher/alarm_mgr.go:107-115 | so does Fix after one entry changed |
| Heap.RemoveKeepsHeap | dispatcher/alarm_mgr.go:140-145 | so does Remove |
| Heap.RootIsMinimum | dispatcher/alarm_mgr.go:132-138 | no entry of a heap precedes its root |
| Interference.TransmittersAreOnAir | radiomodel/radiomodelMutualInterference.go:204-263 | in every run, on however many channels nodes transmit, a node is an active transmitter on a channel if and only if its last start there was followed by no deletion of it and no stop of it that names the channel or finds its radio there |
| Interference.RecordIsExact | radiomodel/radiomodelMutualInterference.go:204-263 | if nodes transmit on one channel at a time, then in every run a transmitter's record is exactly the set of other nodes that were on the air on its channel since it started, as the operations alone tell |
| Interference.NewNodeHeardNobody | radiomodel/radiomodelMutualInterference.go:52-65 | a node that has not started since it was added has an empty record |
| Interference.DeletedNodeLeavesNothing | radiomodel/radiomodelMutualInterference.go:57-65 | a deleted node is on no channel and has no record |
| Interference.SimultaneousRecordEachOther | radiomodel/radiomodelMutualInterference.go:227-231 | nodes that transmit together record each other |
| Interference.RecordIsFrozen | radiomodel/radiomodelMutualInterference.go:252-263 | after the transmission the record stays until the node starts again, is added or is deleted |
| Interference.RecordIsExactIff | radiomodel/radiomodelMutualInterference.go:204-263 | in every run, on however many channels nodes transmit, a transmitter's record for a channel is exact if and only if the transmitters found at its last start on any channel, with the nodes that joined it since anywhere, are those heard on that channel by then, with the nodes that joined it there |
| Interference.RecordSinceLastStart | radiomodel/radiomodelMutualInterference.go:206-231 | the record is always what the node's last start found, on whatever channel, and who joined since |
| Interference.HeardSince | radiomodel/radiomodelMutualInterference.go:223-231 | what a transmitter has heard on a channel grows exactly by the nodes that join it there |
| Interference.SoloRecordIsExact | radiomodel/radiomodelMutualInterference.go:204-263 | a node that keeps to one channel has an exact record, whatever the others do |
| Interference.SecondChannelReplacesRecord | radiomodel/radiomodelMutualInterference.go:206-227 | in every run, a start on a second channel leaves the record right for the first if and only if the second channel's transmitters are the nodes heard on the first |
| Interference.SecondChannelLosesInterferer | radiomodel/radiomodelMutualInterference.go:206-227 | a run of five operations after which the record is empty although an interferer was heard |
| Interference.RunInvariant | radiomodel/radiomodelMutualInterference.go:52-65 | active transmitters are existing nodes, each on one channel, across deletions and re-additions |
| Interference.RadioModel.Add | radiomodel/radiomodelMutualInterference.go:52-55 | a new node has an empty record |
| Interference.RadioModel.Delete | radiomodel/radiomodelMutualInterference.go:57-65 | the loop removes the node from every channel and clears its record |
| Interference.RadioModel.Start | radiomodel/radiomodelMutualInterference.go:204-238 | aborted exactly when the node transmits on the channel already; otherwise the model's start |
| Interference.RadioModel.MarkOverlaps | radiomodel/radiomodelMutualInterference.go:223-231 | the loop records mutual interference with every transmitter on the channel |
| Interference.RadioModel.Stop | radiomodel/radiomodelMutualInterference.go:252-263 | the node is removed from the event's channel and from the one its radio is on |
| Airtime.AirtimeIsExact | radiomodel/radiomodelIdeal.go:206-255 | in every run the recorded time plus any open interval is the measure of the union of all transmission intervals on the channel |
| Airtime.FramesAreCounted | radiomodel/radiomodelIdeal.go:206-223 | in every run the frame counter is the number of starts on the channel since its last reset |
| Airtime.RadioIsTuned | radiomodel/radiomodelIdeal.go:243-255 | in every run the channel that a deletion looks at is the one the radio was last tuned to |
| Airtime.StepKeepsExact | radiomodel/radiomodelIdeal.go:230-241 | every operation keeps that, and the assertions of a stop hold |
| Airtime.ReadIsPure | radiomodel/radiomodelIdeal.go:134-144 | reading mid-transmission returns the measure and changes no later value |
| Airtime.DeleteIsExact | radiomodel/radiomodelIdeal.go:243-255 | deletion stays exact if and only if the node transmits on no channel but its radio's |
| Airtime.LeakedTransmitterCounts | radiomodel/radiomodelIdeal.go:243-255 | otherwise all later time is counted as busy |
| Airtime.Statistics.StatsTxStart | radiomodel/radiomodelIdeal.go:206-223 | the new statistics are the model's, also for the first use of a channel and for aborted starts |
| Airtime.Statistics.StatsTxStop | radiomodel/radiomodelIdeal.go:230-241 | so are those after a stop |
| Airtime.Statistics.StatsDeleteNode | radiomodel/radiomodelIdeal.go:243-255 | and after a deletion |
| Airtime.Statistics.GetChannelStats | radiomodel/radiomodelIdeal.go:134-144 | and after a read, which finds exactly the channels in use |
| Airtime.Statistics.ResetChannelStats | radiomodel/radiomodelIdeal.go:146-148 | and after a reset |
| RadioProgress.RunKeeps | ot-rfsim/src/radio.c:1408-1538 | in every run of a node, no deadline is missed, only Ready has none, no stale wait blocks a frame, and a sleeping node's state has been reported |
| RadioProgress.TimeoutsAreExact | ot-rfsim/src/system.c:190-204 | every timeout happens exactly at its deadline |
| RadioProgress.SleepersAreWoken | ot-rfsim/src/radio.c:1094-1137 | a sleeping node has no frame left to start, and its deadline lies ahead and is among the wake-ups queued for it |
| RadioProgress.ReturnsToReady | ot-rfsim/src/radio.c:1426-1533 | from every substate at most four timeouts lead back to Ready, within a stated time |
| RadioProgress.PassDescends | ot-rfsim/src/radio.c:1426-1533 | every timeout brings Ready closer, and the next one is at most a frame or LIFS away |
| RadioProgress.FastAckHasNoDeadline | ot-rfsim/src/radio.c:1501-1506 | an acknowledgment gets a deadline if and only if its duration does not round to zero |
| RadioProgress.FastAckEndsAtOnce | ot-rfsim/src/system.c:190-198 | one whose duration rounds to zero is over after the second pass of the same message, with the turnaround's deadline ahead |
| RadioProgress.SpacingAfterAck | ot-rfsim/src/radio.c:1258-1265 | after an acknowledged frame the radio stays busy for exactly SIFS or LIFS, by the length of the frame it sent |
| RadioProgress.SpacingAfterFrame | ot-rfsim/src/radio.c:1428-1464 | after an unacknowledged frame too if and only if the frame then in the buffer is on the same side of 18 bytes |
| RadioProgress.ProcessKeeps | ot-rfsim/src/radio.c:1408-1538 | a pass keeps the driver consistent and leaves no deadline due but that of an acknowledgment of no duration, which the next pass removes, whatever the stack does when called back |
| RadioProgress.RxStartKeeps | ot-rfsim/src/radio.c:1198-1224 | the handler keeps the driver consistent |
| RadioProgress.RxDoneKeeps | ot-rfsim/src/radio.c:1226-1271 | the handler keeps the driver consistent |
| RadioProgress.CcaDoneKeeps | ot-rfsim/src/radio.c:1273-1301 | the handler keeps the driver consistent |
| RadioProgress.TxDoneKeeps | ot-rfsim/src/radio.c:1303-1328 | the handler keeps the driver consistent |
| RadioProgress.CallsKeep | ot-rfsim/src/radio.c:326-418 | so does any sequence of calls by the stack; while a frame is received or acknowledged they change neither substate nor deadline |
| RadioVerdict.OneVerdictPerFrame | ot-rfsim/src/radio.c:1029-1073 | in every run with a stack that waits for its verdicts, frames accepted plus stale verdicts equal verdicts told plus the frame being sent |
| RadioVerdict.StepBalances | ot-rfsim/src/radio.c:1408-1538 | every pass, event and call keeps that balance |
| RadioVerdict.ReplyVerdict | ot-rfsim/src/radio.c:1029-1073 | for every radio, frame, error and callback, success is told if and only if a reply is awaited and the frame is the matching acknowledgment, received intact; otherwise that there was none |
| RadioVerdict.SampleVerdict | ot-rfsim/src/radio.c:1273-1301 | channel access failure is told exactly for a busy channel that was being sampled |
| RadioVerdict.EndVerdict | ot-rfsim/src/radio.c:1303-1328 | the end of a frame is told exactly if no acknowledgment is awaited or it failed |
| RadioVerdict.PassVerdict | ot-rfsim/src/radio.c:1408-1538 | which verdicts a pass tells, exactly |
| RadioVerdict.StaleIff | ot-rfsim/src/radio.c:1029-1073 | when a verdict is on a frame that already had one |
| RadioVerdict.LateFrameIsJudged | ot-rfsim/src/radio.c:1480-1486 | a late frame after an acknowledgment whose end was missed gives a second verdict |
| RadioCalls.StateDiagram | ot-rfsim/src/radio.c:326-418 | every change of the radio's state by a call, exactly |
| RadioCalls.ReceivesOnChannel | ot-rfsim/src/radio.c:376-399 | an idle radio asked to receive on a channel hears exactly the frames on it |
| RadioCalls.WakesToReceive | ot-rfsim/src/radio.c:376-399 | a sleeping one does so after exactly the ramp-up time |
| RadioCalls.SendsOnChannel | ot-rfsim/src/radio.c:401-418 | a frame handed to an idle radio has its own channel sampled at the next pass |
| RadioCalls.BusyChannelRetry | ot-rfsim/src/radio.c:1273-1301 | a frame that found the channel busy can be handed over again at once |
| RadioCalls.ClearChannelSends | ot-rfsim/src/radio.c:1273-1301 | a frame that found it clear is sent one turnaround time later, for the time its length and the bitrate ask for |
| RadioCalls.SleepComesTrue | ot-rfsim/src/radio.c:352-374 | a sleep asked for during a reception comes true when the frame or its acknowledgment has ended |
| RadioCalls.ReceiveCancelsSleep | ot-rfsim/src/radio.c:376-399 | a receive call takes it back |
| RadioCalls.HearsStartIff | ot-rfsim/src/radio.c:1198-1224 | when a start of a frame is heard, and when it is taken for an acknowledgment, exactly |
| RadioCalls.AcksOnChannel | ot-rfsim/src/radio.c:1501-1506 | an acknowledgment goes out on the channel last asked to receive on |
| RadioCalls.SpacingAfterSentAck | ot-rfsim/src/radio.c:1508-1517 | after it the radio is ready two turnaround times later |
| RadioCalls.RetunesIff | ot-rfsim/src/radio.c:1426-1533 | which timeouts put the radio on the channel asked for, exactly |
| RadioCalls.UnsecuredFrameRetries | ot-rfsim/src/radio.c:1452-1464 | a frame that could not be secured is sampled for again, and nothing is told |
| RadioCalls.BitrateIsSet | ot-rfsim/src/radio.c:1396-1401 | a bitrate below one counts as one |
| RadioCalls.StrayAckIsHeardIff | ot-rfsim/src/radio.c:1066-1069 | an acknowledgment nobody waits for reaches the stack exactly in promiscuous mode |
| RadioCalls.EnableStarts | ot-rfsim/src/radio.c:326-350 | enabling takes the startup time, again after every disabling |
| RadioDriver.Driver.SetRadioSubState | ot-rfsim/src/radio.c:1165-1176 | substate and deadline of the model |
| RadioDriver.Driver.SetRadioState | ot-rfsim/src/radio.c:1148-1163 | disabling resets the substate |
| RadioDriver.Driver.PlatRadioEnable | ot-rfsim/src/radio.c:326-336 | the model's state |
| RadioDriver.Driver.PlatRadioDisable | ot-rfsim/src/radio.c:338-350 | succeeds exactly when disabled or asleep |
| RadioDriver.Driver.PlatRadioSleep | ot-rfsim/src/radio.c:352-374 | delayed while a frame is received or acknowledged |
| RadioDriver.Driver.PlatRadioReceive | ot-rfsim/src/radio.c:376-399 | succeeds exactly when enabled; waking up takes the ramp-up time |
| RadioDriver.Driver.PlatRadioTransmit | ot-rfsim/src/radio.c:401-418 | succeeds exactly in the receive state |
| RadioDriver.Driver.RadioTransmit | ot-rfsim/src/radio.c:1002-1017 | the frame's duration from length and bitrate, and the message to the simulator |
| RadioDriver.Driver.OnTimeout | ot-rfsim/src/radio.c:1426-1537 | the switch over substates has the model's outcome, messages and signals included |
| RadioDriver.Driver.RadioProcess | ot-rfsim/src/radio.c:1408-1538 | a whole pass has the model's outcome |
| RadioDriver.Driver.OnRxStart | ot-rfsim/src/radio.c:1198-1224 | the model's state |
| RadioDriver.Driver.OnRxDone | ot-rfsim/src/radio.c:1226-1271 | the model's state and signal |
| RadioDriver.Driver.RadioReceive | ot-rfsim/src/radio.c:1029-1073 | the model's state and signal |
| RadioDriver.Driver.OnCcaDone | ot-rfsim/src/radio.c:1273-1301 | the model's state and signal |
| RadioDriver.Driver.OnTxDone | ot-rfsim/src/radio.c:1303-1328 | the model's state and signal |
| RadioDriver.Driver.ProcessMessage | ot-rfsim/src/system.c:190-198 | the handling of a whole message, with its two passes, has the model's outcome and leaves the driver consistent with its deadline ahead, whatever the message, the stack and the bitrate |
| AckExchange.ExchangeIsJudged | ot-rfsim/src/radio.c:1408-1538 | for every frame length, bitrate, start time and reply, in every order of simultaneous steps, the sender's stack is told that the channel was busy, exactly when the sample ends, or success if and only if the reply is the intact matching acknowledgment and otherwise that there was none, exactly when the reply ends; time does not pass that moment before |
| AckExchange.ExchangeTiming | ot-rfsim/src/radio.c:1198-1328 | both ends of the frame share a time t; the acknowledgment starts at t + AIFS strictly inside the sender's window and ends before its failsafe |
| AckExchange.NeverStuck | ot-rfsim/src/radio.c:1467-1506 | until the verdict a step is always possible that leaves less of the exchange to do |
| AckExchange.PlanEnds | ot-rfsim/src/radio.c:1408-1538 | from every point of every exchange at most twenty such steps lead to its verdict |
| AckFailure.InstantFrameIsMissed | ot-rfsim/src/radio.c:1002-1017 | from every beginning, an exchange whose frame takes no time has a run in which the sender is told that there was no acknowledgment |
| AckFailure.InstantAckIsMissed | ot-rfsim/src/radio.c:1501-1506 | so has one whose acknowledgment takes no time |
| AckFailure.NoAckIff | ot-rfsim/src/radio.c:1029-1073 | some run of an exchange ends without acknowledgment if and only if the channel is clear, and one of the two durations rounds to zero or the reply is not the matching acknowledgment |
| AckFailure.QueueSwapsInstantFrame | dispatcher/send_queue.go:44-100 | the event queue hands out the end of an instant frame, and what it posts, before the frame's start when other events of that time are queued |
| AckExchange.EventsAreTheModels | radiomodel/radiomodelMutualInterference.go:235-281 | the events of an exchange are those the radio model posts: a start is dispatched at once and ends after its duration, and its end reaches both sides at one time |
| AckExchange.SampleIsTheModels | radiomodel/radiomodelMutualInterference.go:319-337 | so is the end of a channel sample |
| AckExchange.StepStaysInExchange | radiomodel/radiomodelMutualInterference.go:238-282 | every step of either radio or of the radio model leads from one phase of the exchange to it or to the next |
| FailureCtrl.OneFailurePerInterval | dispatcher/FailureCtrl.go:64-126 | in every run from a schedule set on a working radio, the k-th failure lasts exactly the duration and lies wholly inside the k-th interval after the anchor |
| FailureCtrl.AnchorIsSetTime | dispatcher/FailureCtrl.go:79-126 | the anchor is the time the schedule was set if and only if the node is run at the first chosen instant |
| FailureCtrl.FreshScheduleIsPunctual | dispatcher/FailureCtrl.go:79-126 | that is so if the node is run once before and no older schedule had announced a later operation |
| FailureCtrl.StaleAnnouncementLosesWake | dispatcher/FailureCtrl.go:102-113 | otherwise the wake-up is not queued, exactly when the old announcement is not earlier |
| FailureCtrl.ScheduleOnWorkingRadio | dispatcher/FailureCtrl.go:64-77 | the controller's assertions hold after setting a schedule exactly when the radio works, or everything is zero |
| FailureCtrl.ClearedScheduleWorks | dispatcher/FailureCtrl.go:64-77 | clearing the schedule leaves a working radio that never fails and asks for no wake-up |
| FailureCtrl.AdvancedStaysConsistent | dispatcher/FailureCtrl.go:79-114 | the assertions hold after every step, and new wake-ups lie in the future |
| FailureCtrl.Controller.SetFailTime | dispatcher/FailureCtrl.go:64-77 | the new schedule is the model's |
| FailureCtrl.Controller.OnTimeAdvanced | dispatcher/FailureCtrl.go:79-114 | schedule, next time and flag are the model's; no assertion fires |
| FailureCtrl.Controller.CalcNextFailTimestamp | dispatcher/FailureCtrl.go:116-126 | the next failure and the rest of the interval |
| DriftClock.RunIsExact | ot-rfsim/src/alarm.c:59-77 | over any run, clock and residual equal the sum of delta * (10^6 + ppm), the residual stays below a microsecond, and the clock never goes back |
| DriftClock.SplitIndependent | ot-rfsim/src/alarm.c:59-75 | under constant drift the clock does not depend on how the time was split |
| DriftClock.Alarm.AdvanceNow | ot-rfsim/src/alarm.c:59-75 | the new clock is the model's |
| DriftClock.Alarm.SleepReachesATimer | ot-rfsim/src/alarm.c:113-149 | after the delay asked for, a timer is due |
| DriftClock.Alarm.MicroTimerIsExact | ot-rfsim/src/alarm.c:113-149 | a microsecond timer alone is due then and at no time before |
| DriftClock.Alarm.MilliTimerIsLate | ot-rfsim/src/alarm.c:113-149 | a millisecond timer alone is due earlier, by the microseconds already spent in the current millisecond |
| EventWire.RoundTrip | event/event.go:151-248 | within 65554 bytes an event is read back as written exactly when it is of a symmetric type |
| EventWire.AssembleRoundTrip | event/event.go:196-306 | which events survive serializing and parsing, exactly |
| EventWire.DeserializeFirst | event/event.go:196-248 | when the first event of a buffer is found complete, exactly, and what it is parsed from |
| EventWire.LongBufferHidesEvent | event/event.go:196-208 | a buffer one byte longer hides a complete event |
| EventWire.TruncatedEvent | event/event.go:196-208 | a truncated event yields nothing |
| EventWire.StreamRoundTrip | dispatcher/dispatcher.go:846-871 | the reader loop recovers any sequence of surviving events exactly |
| EventWire.TruncatedStream | dispatcher/dispatcher.go:849-857 | a truncated last event closes the connection after all complete ones were handed on |
| EventWire.IntroducedStream | dispatcher/dispatcher.go:858-871 | a connection that introduces itself goes by its node id and loses nothing |
| EventWire.NoIntroduction | dispatcher/dispatcher.go:863-867 | any other first event closes it |
| EventWire.ReadBuffer | dispatcher/dispatcher.go:846-871 | the loop computes the model's reading |
| NodeWire.DispatcherReadsNode | ot-rfsim/src/event-sim.h:77-131 | every event that a node sends as packed structs is read by the dispatcher as it was meant, whatever follows |
| NodeWire.NodeReadsDispatcher | event/event.go:151-194 | what the dispatcher serializes is byte for byte the packed event that a node reads |
| NodeWire.StructReadsBack | ot-rfsim/src/event-sim.h:77-131 | a packed struct reads back member by member |
| NodeWire.NodeStream | dispatcher/dispatcher.go:846-871 | the reader recovers every sequence of events that a node sends, of all types |
| NodeWire.NodeConnection | dispatcher/dispatcher.go:858-871 | a node's introduction names the connection, and nothing sent after it is lost |
| UdpChecksum.PseudoHeaderSum | simulation/utils.go:103-115 | the pseudo-header adds both addresses, the length and the protocol number to the sum |
| UdpChecksum.CalcUdpChecksum | simulation/utils.go:103-134 | the checksum is nonzero and the only nonzero one with which the segment verifies, as section 8.1 of RFC 2460 asks |
| UdpChecksum.SumWords | simulation/utils.go:115-125 | the sum over any admissible datagram, odd lengths included, fits 32 bits |
| UdpChecksum.FoldAndComplement | simulation/utils.go:126-133 | folding terminates in the complement of the one's-complement sum, never zero |
| UdpChecksum.CreateIp6UdpDatagram | simulation/utils.go:137-163 | addresses, ports, lengths, payload and a verifying checksum can be read back from the bytes |
| UdpChecksum.Ip6HeaderRoundTrip | simulation/utils.go:78-91 | the header parses back |
| Entropy.LehmerSequence | ot-rfsim/src/entropy.c:67-87 | the outputs are the Lehmer sequence, never stuck, if and only if the accepted seed is not -2 |
| Entropy.OutputCongruence | ot-rfsim/src/entropy.c:67-87 | for every seed word the n-th output is congruent to 16807^n times the seed modulo 2^31 - 1 |
| Entropy.NeverZeroResidue | ot-rfsim/src/entropy.c:67-87 | a seed that is no multiple of the modulus keeps all outputs in [1, 2^31 - 2] |
| Entropy.MultiplesAreStuck | ot-rfsim/src/entropy.c:67-87 | a nonzero multiple is caught at the modulus |
| Entropy.Generator.RandomUint32Get | ot-rfsim/src/entropy.c:67-87 | one step of the model |
| Entropy.Generator.EntropyGet | ot-rfsim/src/entropy.c:92-148 | the buffer holds the low bytes of consecutive outputs |

## Left out

- Sockets, process launch, pipes, signals, files, the command line, visualizers and the RPC services: sockets appear only as FIFO queues.
- Simulator.Simulator.Go: takes the nodes' messages and the wall clock as a finite list of rounds, because the length of the loop depends on both; a list that is too short is a cancelled run.
- Simulator.Simulator.ProcessInstant: an instant at Ever that never ends (InstantAtEverNeverEnds) is reported as hanging; so is one that looks for an alarm or event where there is none, which in the source is a failed assertion.
- Simulator.Simulator.AddNode: node records are values in a map, so aliasing of node pointers, and radio-node pointers that outlive a deletion, are not captured.
- Real-time mode and the pacing arithmetic in floating point: they depend on the operating system's scheduler.
- A node that times out while the dispatcher waits for it, and a second process that claims a node id.
- LockStep.EventsReachTheirNode: messages that a deleted node's process still has under way are dropped, so their being credited to a new node with its id is not captured; the model has no connection identities.
- Path loss, bit errors, fading and signal strength: reachability and corruption are free choices. The error code of a frame whose sender changed channel is not modelled.
- Channel sampling: no node is ever registered as sampling, so the radio model's reactions to sampling nodes never happen.
- OpenThread callbacks, MAC frame contents and encryption: free choices of the environment.
- Wi-Fi interferer mode, energy scan and Bluetooth advertising.
- Unsigned 64-bit overflow of times and counters: integers are unbounded except where the code truncates.
- AckExchange.ExchangeIsJudged: the sender's stack stays silent until its verdict and the receiver's stack asks for no other channel while it receives; both radios have zero drift.
- RadioProgress.RunKeeps: assumes zero drift.
- RadioVerdict.OneVerdictPerFrame: assumes that the stack neither moves the radio nor touches the frame before its verdict.
- Interference.RecordIsExact: assumes that a node transmits on one channel at a time, which the code does not enforce; RecordIsExactIff says what holds without it.
- Airtime.AirtimeIsExact: assumes that stops follow starts, resets come on idle channels, and deletions meet the condition of DeleteIsExact.
- LockStep.RunKeeps: assumes that nodes speak only after a message and that every node's drift is constant.
- Node and frame counters, energy, packet capture, statistics windows and logging.
