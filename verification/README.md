# Verification of the dial scheduler, the dial search and the statistics of a libp2p switch

A Dafny 4.11 model of three parts of the switch, and proofs about them. `dafny verify dfyconfig.toml`
checks everything.

**Dialling.** The dial queue manager shares a bounded number of slots among one queue for each peer. It
keeps two waiting sets in insertion order (normal and cold calls), a set of dialing ids, and a table of
queues. Each queue drives one connection at a time and goes on when the connection opens or closes. The
calls between manager, queues and connections are synchronous and re-enter each other: `run` starts a
queue, whose dial may fail at once, which denies and aborts the queue, which stops it, which runs the
manager again. A connection is a state machine whose handlers fire further events in the same turn.

- `Fsm`, `Connection`: the transition table, what a transition sets off, and the order of the states of one dial.
- `Scheduler`: one state with the manager, every queue and every connection ever made; a cascade of calls
  as one recursive function whose termination measure is the pair of waiting ids and pending requests.
- `Turns`, `Runs`: everything that can start a cascade, and runs of any number of such turns with any
  outside decisions. The main theorems hold in every state that a run can reach.
- `Slots`, `SafeTurns`: the invariant behind them. `Spared`, `Shutdown`, `WorkConservation`, `Stranding`,
  `Ledger`, `Fates`, `Line`, `Forward`, `Backoff`: one subject each.
- `Failures`, `Barring`, `Denials`, `Forgetting`: what a failed dial does to a queue, that a queue denied
  until a deadline is empty, through which turns a denial stands, and what comes of a denial for good.
- `Dating`, `Refusals`, `Shortening`: that a denial stems from the last failure, how long a peer is refused
  over whole runs, and a run in which a reset of the failures brings a deadline forward.
- `Answers`, `Cleaning`, `Faults`, `Progress`, `Shakes`, `Slotted`, `Footprint`: what each kind of turn comes
  to, said in the terms of the sets, the queues, the connections and the log alone and not in those of the
  functions that compute it: when a call is aborted, denied or accepted and what it sets off; what the timer
  deletes; what a failure does; what a completion leads to; which requests are shaken; which queues run
  without a slot; and what a turn leaves alone.
- `ConnectionFsm`, `Tracking`, `Dialer`: the same code as objects that update their fields and call each
  other. A ghost `model` is the scheduler state that the objects represent, and every method is proved to
  change it exactly as the function on values does.
- `Switch`: one method for each kind of turn, proved to keep the objects in a state that some run reaches,
  and what the theorems about runs then say of the fields.

**The dial search.** `DialSearch` has the loops over transports and addresses, and shows that they come to
one pass over one flat list.

**Statistics.** `Stat` is the buffered counter with its timer, `Deadline` bounds how long a push waits,
`Accounts` and `StatsHub` are the fan-out of messages over global, peer, transport and protocol counters,
on values and as objects.

Modelling choices. One turn of the JavaScript event loop is one step. The FSM library is a table step
followed by synchronous handlers; an event the table does not have reports an error and keeps the state.
User callbacks do not call back into the switch. Each operation handed to the outside completes at most
once, well, badly, or never; what it does is decided by the outside, and so are `isConnected`, whether an
identified peer is spared denial, the clock and the random draws. A dial can also fail in the turn that
starts it. Times and frequencies are exact reals. The peer is in the peer book, and is not ourselves.

What the code does and its comments or documentation do not say:

- The README promises `computeThrottleTimeout` as the maximum update interval. The bound that the code
  keeps is half of that for each push that fits in the queue besides the first, so the promise holds
  exactly for queue sizes up to three (`Deadline.PromisedInterval`).
- The back-off grows strictly for every jitter draw exactly when at most sixteen attempts are allowed
  (`Backoff.GrowsExactly`, `Failures.DenialsGrowExactly`). The `unmuxed` listener resets the count and
  leaves the deadline, after which a failure can bring the deadline forward: a run with the default
  settings does so (`Shortening.ResetShortens`). Without such a reset no failure ever does
  (`Refusals.RefusedUntilDeadline`).
- A queue denied for good is not aborted at once, although the comment on `denylist` says so: an error
  that denies a queue leaves it without work exactly when the denial has a deadline or there was no work
  (`Forgetting.DenialAborts`), and a queue denied for good can go on to dial its next request
  (`Refusals.DialsOnDenied`). The clean timer deletes such a queue, so that a later dial starts afresh,
  unless its id waits, it has requests and its failures were reset (`Forgetting.CleanForgets`): then the
  timer may start it before coming to it, and another failure may give it a deadline.
- `start` does not run the manager: a dial to an unconnected peer of a stopped manager leaves its id
  waiting next to a free slot exactly when it is not refused and its queue does not run
  (`WorkConservation.StoppedDialServes`, `Stranding.RestartStrands`).
- `run` gives up when the id it pops has no queue any more, which the clean timer can bring about
  (`WorkConservation.RunGivesUp`, `Stranding.CleanStrands`), but only if it finds a stale queue whose id
  waits (`WorkConservation.CleanServes`), and then always, if no stale queue is running
  (`WorkConservation.CleanServesExactly`). A running queue denied for good is the one case in which that
  condition is proved one way: discarding it runs the manager, which may start the waiting queue first.
  Without these two, no id ever waits next to a free slot (`Runs.WorkConserved`).
- When only the relay transport is registered, the search fails without trying it (`DialSearch.SearchFails`).

## Model

| member | source | states |
|---|---|---|
| Runs.NoLeakedSlots | src/dialer/queueManager.js:156-205 | in every reachable state the waiting, cold and dialing sets are disjoint and within their bounds, every slot is held by a running queue in the table, and every running queue owns a connection in flight whose `next` is armed and whose outside operation is still open |
| Runs.NoStrandedRequest | src/dialer/queueManager.js:106-151 | in every reachable state a queue with requests is the one in the table and is running or has its id in a waiting set, so a deleted queue has none |
| Runs.WorkConserved | src/dialer/queueManager.js:156-184 | both waiting sets are empty whenever a slot is free, in every run in which no clean timer finds a stale queue whose id waits and no dial makes an id wait for a stopped manager |
| WorkConservation.TurnServes | src/dialer/queueManager.js:202-205 | every turn but those two keeps that, although each `run` starts one queue only |
| WorkConservation.StoppedDialServes | src/dialer/queueManager.js:106-151 | a dial to an unconnected peer of a stopped manager leaves no id waiting if and only if it is a cold call too many, the peer is denied, or its queue runs |
| WorkConservation.CleanServes | src/dialer/queueManager.js:34-65 | the clean timer leaves no id waiting next to a free slot when no waiting id has a stale queue |
| WorkConservation.CleanServesExactly | src/dialer/queueManager.js:34-65 | if no stale queue is running, the clean timer leaves no id waiting without a queue or next to a free slot if and only if no waiting id has a stale queue |
| WorkConservation.TurnServesExactly | src/dialer/queueManager.js:156-205 | any turn, but for a timer that discards a running queue, keeps the slots in use if and only if it neither cleans away the queue of a waiting id nor makes an id wait for a stopped manager |
| Spared.ExecSpares | src/dialer/queueManager.js:156-205 | a cascade changes no queue but the one it is for and those whose ids it takes out of the waiting sets |
| WorkConservation.RunGivesUp | src/dialer/queueManager.js:174-179 | with one slot free and ids waiting, `run` puts the slot to use exactly when the first id still has a queue |
| Stranding.RestartStrands | src/dialer/queueManager.js:73-75 | a run that stops, dials and starts leaves an id waiting with all slots free |
| Stranding.CleanStrands | src/dialer/queueManager.js:34-65 | a run from the start, with no stop, in which the clean timer leaves an id without a queue and another peer waits next to a free slot |
| Runs.RequestsConserved | src/dialer/queue.js:88-93 | the requests handed to `add` for a peer are, as a multiset, those refused, aborted, started and pending, after every run |
| Runs.FirstInFirstOut | src/dialer/queue.js:226-228 | what a peer's queues accepted is what was aborted or started, in the same order, followed by what is pending, across deletion and re-creation of the queue |
| Runs.ShakesOnlyWhenOpen | src/dialer/queue.js:235-272 | a queue shakes a protocol only on a connection in MUXED or CONNECTED |
| Shakes.ShakenAtOnce | src/dialer/queue.js:234-240 | in every reachable state, a start of a request with a protocol is followed at once by its handshake over the same muxed connection, unless it is the start that made the connection |
| Shakes.ShakenOnce | src/dialer/queue.js:260-272 | for every connection and request with a protocol there are as many handshakes as starts, but for the start that made the connection, whose handshake comes exactly when the connection has been MUXED or CONNECTED |
| Shakes.ShakenAsOpened | src/dialer/queue.js:41-55 | a request without a protocol is never shaken, and a handshake is in a state that its connection has been in |
| Runs.NoOvertaking | src/dialer/queueManager.js:137-168 | an id at position k of the normal set is popped by the (k+1)th pop and loses its place only by pops, whatever is added or promoted, unless the manager stops |
| Runs.ColdComesLast | src/dialer/queueManager.js:156-184 | over every run without a stop, a cold id that is not promoted leaves its set only after every id in the normal set has been popped, from whatever state on the run is looked at |
| Runs.LifecycleOrder | src/connection/index.js:61-141 | the state history of a queue's connection is one straight dial, cut short by DISCONNECTING and DISCONNECTED only; it rests where `disconnect` is legal; it is tracked exactly until disconnected |
| Runs.ClosedForGood | src/connection/index.js:62-66 | late completions never move a connection out of DISCONNECTED, nor track it again |
| Runs.HangUpCloses | src/index.js:177-185 | every connection tracked for the peer at the call is closing from then on in every later run, and not tracked once it has closed |
| Runs.StopDrainsAlways | src/dialer/queueManager.js:83-98 | from every reachable state `stop` empties all three id sets and the table, answers every pending request with an abort and nothing else, leaves no queue running, and touches no connection |
| Scheduler.MicroShrinks | src/dialer/queueManager.js:156-205 | every call in a cascade lessens, in this order, the waiting ids, the pending requests of the queue concerned, and a phase, so the recursion ends |
| Slots.ExecKeeps | src/dialer/queue.js:117-147 | a whole cascade keeps the slot, queue and connection invariant, although it is broken for the queue at work in between |
| Slotted.RunningHoldSlots | src/dialer/queueManager.js:156-205 | after every run each running queue holds a slot or was dialled in the run while its peer was connected |
| Slotted.DialsAreBounded | src/dialer/queueManager.js:156-205 | in every run without a dial to a connected peer, exactly the dialing ids have a running queue, one each, and no more than the bound allows |
| SafeTurns.AddKeeps | src/dialer/queueManager.js:106-151 | `add` keeps the invariant, for connected peers, denied peers and refused cold calls |
| SafeTurns.CleanKeeps | src/dialer/queueManager.js:34-65 | the clean timer keeps the invariant |
| Cleaning.CleanExactly | src/dialer/queueManager.js:34-65 | in every reachable state in which no running queue is denied for good, the timer deletes a queue if and only if it is denied for good, or is undenied, stopped, without requests and of an unconnected peer; every other queue is left as it is, only requests of deleted queues are aborted, and the sets and connections stay |
| SafeTurns.CompleteKeeps | src/connection/index.js:307-404 | any late or timely completion keeps the invariant |
| Faults.FaultDenies | src/dialer/queue.js:246-253 | in every reachable state, a search, protection, encryption or identify that fails, or a close with an error, closes the connection, uses up its listener, counts one failure and denies the queue: for good at the limit, else from now for a time within a tenth of the cubic multiple, and then stops it and aborts its requests in order |
| Faults.ClosingSpares | src/dialer/queue.js:246-253 | the same failures for a spared peer or without a listener, a close without an error, and a muxer that closed: the connection closes, a muxed one waits for its muxer to end, and no queue is denied or pardoned |
| Faults.FailsAtOnce | src/dialer/queue.js:216-276 | a new connection whose dial fails in the turn that makes it is closed in that turn, and its queue denied and its further requests aborted as above |
| Progress.StepGoesOn | src/connection/index.js:307-404 | in every reachable state, where each successful step of a dial, and a failed upgrade, leads in the same turn, which operations are then open, and which listeners are armed |
| Progress.EndCloses | src/connection/index.js:269-298 | an ended muxer leaves the connection disconnected and untracked |
| Progress.LateSuccess | src/connection/index.js:240-247 | a step that succeeds after the connection has closed changes nothing but its bookkeeping |
| Progress.LateStop | src/connection/index.js:438-449 | likewise an upgrade that fails late |
| Progress.BooksOnly | src/connection/base.js:23-30 | likewise an identify that succeeds, and everything that closes or completes while the muxer is ending |
| Progress.PlainOpeningResets | src/dialer/queue.js:267-272 | a connection that opens without a muxer resets the failures of its queue, keeps its denial, and touches no other queue's |
| Progress.MuxedOpeningPardons | src/connection/manager.js:42-46 | a connection that becomes muxed leaves its peer's queue without a denial and without failures |
| Footprint.TurnLeaves | src/index.js:177-185 | in every reachable state a turn leaves every connection as it is, tracked or not, that it does not complete an operation of, close, or hang up the peer of |
| Footprint.ClearPardons | src/dialer/queueManager.js:190-194 | clearing the denylist pardons one peer's queue and changes nothing else |
| Footprint.StartOnlyFlags | src/dialer/queueManager.js:73-75 | starting the manager sets its flag and nothing else |
| Footprint.AcceptPardons | src/connection/manager.js:31-49 | an inbound connection is tracked last, muxed and unowned, pardons its peer's queue, and changes nothing else |
| Answers.ColdCallAborted | src/dialer/queueManager.js:113-123 | `add` aborts a request at once if and only if its priority is above 10 and the cold set is full or the id is in the normal set |
| Answers.DeniedOrAccepted | src/dialer/queue.js:88-110 | a request that is not aborted is refused as denied if and only if its peer is denied for good, or until a time not before the call; else it is accepted |
| Answers.AdmittedWaitsOrStarts | src/dialer/queueManager.js:125-150 | a dial to an unconnected peer that is neither aborted nor denied, and whose queue is idle, starts a dial in the same turn or leaves the id in the normal set (priority up to 10) or in the cold set |
| Answers.ConnectedStarts | src/dialer/queueManager.js:127-132 | a dial to a connected peer that is neither aborted nor denied, and whose queue is idle, starts a dial in the same turn |
| Answers.ConnectedJoins | src/dialer/queue.js:117-125 | a dial to a connected peer whose queue runs puts the request at its end and does nothing else |
| Answers.RunningJoins | src/dialer/queueManager.js:138-150 | likewise to an unconnected peer, as far as its queue is concerned, whatever other queue starts |
| Answers.NextGoesOver | src/dialer/queue.js:184-206 | the next dial of a running queue goes over the first muxed connection tracked for its peer if there is one, else over one new connection, wired, tracked and dialling |
| Denials.AddAnswers | src/dialer/queue.js:88-110 | the first thing `add` notes is the answer: aborted, denied at the time of the call, or accepted |
| Denials.TurnStands | src/dialer/queue.js:99-110 | the queue of a denied peer stays in the table and denied through every turn that does not give the denial up; unless the failures are reset, a further failure only makes the denial last longer |
| Refusals.EndsExactly | src/dialer/queueManager.js:190-194 | in every reachable state, a turn other than a dial ends a denial if and only if it stops the manager, clears the peer, accepts a connection of it, opens a muxed one, or cleans while the peer is denied for good; for the timer, a denial with a deadline never ends, and one for good always does under the condition of Forgetting.CleanForgets |
| Barring.TurnBars | src/dialer/queue.js:153-170 | every turn keeps each queue empty that is denied until a deadline |
| Barring.ExecIdles | src/dialer/queue.js:214-278 | a cascade starts or stops a queue without requests and changes nothing else of it, unless it begins with an error on a connection that the queue owns |
| Denials.OpeningForgives | src/connection/manager.js:42-46 | a connection that becomes muxed ends the denial of its peer for the whole turn, whatever the cascade does next |
| Spared.ExecDenies | src/dialer/queue.js:153-170 | no cascade forgives a denial |
| Refusals.RefusedWhileDenied | src/dialer/queue.js:88-110 | after every run that does not give the denial up, with cleans of a denial with a deadline among its turns, the peer is denied, and a dial to it is refused as denied while the deadline then in force has not passed |
| Refusals.RefusedUntilDeadline | src/dialer/queue.js:153-170 | a peer that comes to be denied in a run is refused until the deadline that this denial began with, whatever fails meanwhile, if no reset happens, the clock does not go back and at most sixteen attempts are allowed |
| Dating.TurnDated | src/dialer/queue.js:153-170 | every turn without a reset leaves the denial of a queue to stem from its last counted failure, at a time that the clock has reached |
| Failures.ExecLasts | src/dialer/queue.js:153-170 | within one cascade every denial of a queue outlasts the one it replaces |
| Shortening.ResetShortens | src/dialer/queue.js:267-272 | a run from the start with the default settings in which the denial is never given up and yet a reset by `unmuxed` lets a failure bring the deadline forward, so that a dial before the first deadline is accepted |
| Refusals.CleanSparesDenied | src/dialer/queueManager.js:44-45 | in every reachable state the clean timer leaves every denial with a deadline as it is, whether the id waits or not |
| Forgetting.CleanForgets | src/dialer/queueManager.js:36-42 | a peer denied for good has no queue after the clean timer, and its next request makes one without a denial and without failures; this holds when its id does not wait, its queue has no requests, or one more failure would deny it for good again |
| Forgetting.DenialAborts | src/dialer/queue.js:149-170 | an error that denies a queue leaves it stopped and empty if and only if the denial has a deadline or the queue had no work |
| Refusals.DialsOnDenied | src/dialer/queue.js:153-159 | a run from the start after which a queue is denied for good and its next request is being dialled by a new connection |
| Failures.DenialsGrowExactly | src/dialer/queue.js:153-170 | a queue's successive finite denials last strictly longer for all clocks and draws, if and only if at most sixteen attempts are allowed |
| Backoff.GrowsExactly | src/dialer/queue.js:161-168 | the jittered cubic time to live grows strictly for every draw, if and only if at most sixteen attempts are allowed |
| Backoff.Jitter | src/dialer/queue.js:161-166 | the jitter moves a time to live by at most a tenth |
| Connection.DialDone | src/connection/index.js:240-247 | a finished search takes a wired connection on to PRIVATIZING or ENCRYPTING in the same turn, and leaves a closed one closed |
| Connection.ProtectDone | src/connection/base.js:106-120 | a protected connection goes on to ENCRYPTING in the same turn |
| Connection.CryptoDone | src/connection/index.js:307-334 | an encrypted connection goes on to UPGRADING, or to CONNECTED without muxers |
| Connection.MuxDone | src/connection/index.js:343-404 | a negotiated muxer makes the connection MUXED |
| Connection.UpgradeStopped | src/connection/index.js:438-449 | a failed upgrade leaves CONNECTED; on a closed connection it is no transition and reaches no listener |
| Connection.EndDone | src/connection/index.js:269-297 | an ended muxer completes DISCONNECTING |
| Connection.Disconnects | src/connection/base.js:23-30 | closing between turns is a legal transition from every state but DISCONNECTING, and where it leads |
| ConnectionFsm.ConnectionFSM.Outbound | src/connection/index.js:44-59 | a queue's connection starts in DISCONNECTED |
| ConnectionFsm.ConnectionFSM.Inc | src/connection/manager.js:204-210 | an inbound connection starts in MUXED |
| ConnectionFsm.ConnectionFSM.Transition | src/connection/index.js:61-115 | fires an event exactly as the table and the chain of reactions say, and reports whether it was a transition |
| ConnectionFsm.ConnectionFSM.Handle | src/connection/index.js:117-141 | the handlers, with the events they fire in the same turn, reach the settled state |
| Dialer.Queue.IsDialAllowed | src/dialer/queue.js:99-110 | drops a deadline that has passed, and refuses otherwise |
| Dialer.Queue.Add | src/dialer/queue.js:88-93 | appends the request, or refuses it as denied |
| Dialer.Queue.Start | src/dialer/queue.js:117-125 | changes all objects as the cascade on values does from starting this queue |
| Dialer.Queue.Stop | src/dialer/queue.js:130-136 | likewise from stopping it, which frees the slot and runs the manager |
| Dialer.Queue.Drain | src/dialer/queue.js:141-145 | takes every request out, first to last |
| Dialer.Queue.Abort | src/dialer/queue.js:141-147 | likewise from aborting it |
| Dialer.Queue.Deny | src/dialer/queue.js:153-170 | counts the failure, sets the denial, and aborts unless the denial is for good |
| Dialer.Queue.Connect | src/dialer/queue.js:184-206 | takes the first request and makes, wires and tracks one connection for it when no muxed one is tracked |
| Dialer.Queue.Next | src/dialer/queue.js:214-278 | likewise from running the next dial: over an open connection, by a new one, or stopping |
| Dialer.DialQueueManager.constructor | src/dialer/queueManager.js:18-26 | a new manager is the running, empty scheduler |
| Dialer.DialQueueManager.Run | src/dialer/queueManager.js:156-184 | likewise from `run`, which re-enters through the queues it starts |
| Dialer.DialQueueManager.Add | src/dialer/queueManager.js:106-151 | the whole of `add`, for every priority, denial and connectedness |
| Dialer.DialQueueManager.Enqueue | src/dialer/queueManager.js:140-147 | puts the id at the end of its set unless it is there, and promotes a cold id |
| Dialer.DialQueueManager.GetQueue | src/dialer/queueManager.js:212-217 | returns the queue filed for the id, or files a new empty one and changes nothing else |
| Dialer.DialQueueManager.ClearDenylist | src/dialer/queueManager.js:190-194 | clears the denial and the count of the id's queue |
| Dialer.DialQueueManager.Clean | src/dialer/queueManager.js:34-65 | visits a snapshot of the queues in order, and aborts and deletes exactly the stale ones |
| Dialer.DialQueueManager.Stop | src/dialer/queueManager.js:83-98 | clears the sets, then aborts and deletes every queue of a snapshot, making no connection |
| Dialer.DialQueueManager.Start | src/dialer/queueManager.js:73-75 | sets the flag and runs nothing |
| Dialer.DialQueueManager.ReportError | src/dialer/queue.js:246-253 | an error is reported once and denies the queue that wired the connection, unless the peer is identified and connected |
| Dialer.DialQueueManager.CloseConn | src/connection/base.js:82-87 | disconnecting untracks the connection, uses up its listeners and wakes the queue that wired it |
| Dialer.DialQueueManager.Close | src/connection/base.js:23-30 | closing does nothing while disconnecting, reports an error first if there is one, then disconnects |
| Dialer.DialQueueManager.Advance | src/dialer/queue.js:255-272 | an opened connection clears its peer's denial, resets its queue's failures, shakes the protocol and wakes the queue |
| Dialer.DialQueueManager.Complete | src/connection/index.js:269-455 | what every operation's completion sets off, well or badly, at any time |
| Dialer.DialQueueManager.Accept | src/connection/manager.js:31-49 | an inbound muxed connection is tracked and clears its peer's denial |
| Dialer.DialQueueManager.HangUp | src/index.js:177-185 | closes each connection of a copy of the peer's list |
| Switch.Switch.Dial | src/dialer/queueManager.js:106-151 | dialling keeps the objects in a state that a run reaches, and takes that run one dial further |
| Switch.Switch.Complete | src/connection/index.js:269-455 | likewise for the completion of an operation that is still open |
| Switch.Switch.Stop | src/dialer/queueManager.js:83-98 | likewise for `stop`, after which the fields hold no id and no queue, and no queue ever made runs or has requests |
| Switch.Switch.HangUp | src/index.js:177-185 | likewise for `hangUp`, after which every connection object that was tracked for the peer is closing, or closed and untracked |
| Switch.Switch.SlotsAreUsed | src/dialer/queueManager.js:156-205 | between turns the set fields are disjoint and bounded, every dialing id maps to a running queue, and every running queue has a connection object in flight that will call it back |
| Switch.Switch.RequestsAreHeld | src/dialer/queueManager.js:106-151 | between turns a queue object with requests is the one filed for its id, and runs or has its id in a waiting field |
| Switch.Switch.TrackedUntilClosed | src/connection/manager.js:92-118 | between turns a connection object is tracked exactly until it has disconnected, and its states so far are one straight dial |
| Tracking.ConnectionManager.Add | src/connection/manager.js:31-36 | appends the connection to the tracked ones, unless it is tracked already |
| Tracking.ConnectionManager.Get | src/connection/manager.js:57-66 | finds a connection exactly when it is tracked |
| Tracking.ConnectionManager.GetOne | src/connection/manager.js:74-84 | the first muxed connection tracked for the peer |
| Tracking.FirstMuxedExact | src/connection/manager.js:74-84 | such a one is found if and only if the peer has a muxed connection |
| Tracking.ConnectionManager.Remove | src/connection/manager.js:102-113 | removes the connection and no other, leaves no empty list, and changes nothing when repeated |
| Tracking.ConnectionManager.GetAll | src/connection/manager.js:125-131 | lists each tracked connection once and nothing else |
| Tracking.ConnectionManager.GetAllById | src/connection/manager.js:139-141 | the tracked connections of the peer, in the order they were added |
| DialSearch.KeysOfSearch | src/connection/index.js:209-215 | the keys searched are distinct, alphabetical with the relay last, and exactly the transports with an address plus the relay |
| DialSearch.KeysAlphabetical | src/index.js:129-135 | of two keys of a search the earlier is not the relay, and comes first by character codes unless the later is the relay |
| DialSearch.OrderUnique | src/index.js:129-135 | a list in that order is determined by its members, so any sort gives the same |
| DialSearch.WorkQueue.DoWork | src/limit-dialer/queue.js:42-71 | a failed dial leaves the token, a success claims it, and one after another success is dropped |
| DialSearch.LimitDialer.DialSingle | src/limit-dialer/index.js:73-85 | makes the peer's queue on first use, keeps all others, and dials once |
| DialSearch.LimitDialer.DialMany | src/limit-dialer/index.js:36-61 | dials addresses in order up to the first success, collects the errors before it, and never drops a connection |
| DialSearch.OnDialing | src/connection/index.js:202-249 | the nested loops find the first success of the flat list of all attempts and make exactly the attempts up to it |
| DialSearch.FirstExact | src/limit-dialer/index.js:51-60 | the first success is the attempt that succeeds with all before it failing, and there is none when all fail |
| DialSearch.TriesExactly | src/transport.js:204-226 | an address is among the attempts of a transport if and only if the transport is registered and has an address of the peer or is the relay, can handle the address, and no address of ours is a prefix of its destination |
| DialSearch.RowOf | src/transport.js:87-110 | the attempts of one transport stand together, in the order in which it lists its addresses and as often, without those that lead back to us |
| DialSearch.SearchFails | src/connection/index.js:205-230 | the search connects if and only if a transport besides the relay is registered and one of those attempts is reached; else it says which of the two it was, and whether the relay is enabled |
| DialSearch.OneStretch | src/connection/index.js:217-246 | each transport is tried at most once |
| Stat.Stats.Push | src/stats/stat.js:94-97 | appends the operation and sets the timer by the new length |
| Stat.Stats.Start | src/stats/stat.js:49-53 | sets the timer only if operations wait |
| Stat.Stats.Stop | src/stats/stat.js:61-66 | clears the timer and nothing else |
| Stat.Stats.Update | src/stats/stat.js:138-151 | everything that waited is applied, in order; accumulators are zero and the samples of each counter integrate to a thousand times its total |
| Stat.Stats.ApplyAll | src/stats/stat.js:140-145 | the loop applies each operation once, in order, and opens a counter for each new key |
| Stat.Stats.ApplyOp | src/stats/stat.js:215-236 | adds to one counter and its accumulator |
| Stat.Stats.UpdateFrequency | src/stats/stat.js:162-170 | every counter gets exactly one sample, of what it accumulated over the span, in any order; no other sample is taken, and every accumulator is empty |
| Stat.Stats.UpdateFrequencyFor | src/stats/stat.js:182-204 | moves the accumulated count of one counter into one sample, with a span of zero counted as one |
| Deadline.WaitIs | src/stats/stat.js:120-125 | the wait falls by an equal part of the throttle timeout with each push, to zero |
| Deadline.FlushedInTime | src/stats/stat.js:94-113 | in every run of pushes and timers, a buffer is flushed within half the timeout for each further push that fits, counted from its first push |
| Deadline.ExactBound | src/stats/stat.js:105-125 | that bound is the least there is |
| Deadline.PromisedInterval | README.md:334 | the documented maximum interval holds if and only if the queue size is at most three, or the timeout is zero |
| Accounts.BooksBalance | src/stats/index.js:63-120 | after any messages, closings, lookups and evictions, what was pushed globally is the sum over transports and the sum over live, retained and dropped peers; no peer is both live and retained, and no transport or protocol has two counters |
| Accounts.MessagesCounted | src/stats/index.js:75-120 | after any events the account of a transport holds every message that came over it, that of a protocol every message of it, and the global one every message that came over any transport, all in order |
| Accounts.PeerHistory | src/stats/index.js:84-97 | a peer's counter holds every message counted for it, in order, however often it disconnects and returns, unless the cache drops it |
| Accounts.MessageContinues | src/stats/index.js:84-97 | a message continues the live or retained counter of its peer and touches no other peer's |
| StatsHub.Hub.constructor | src/stats/index.js:39-61 | the hub starts with the global counter only |
| StatsHub.Hub.OnMessage | src/stats/index.js:75-120 | pushes under `dataReceived` or `dataSent` to exactly the counters the message concerns, makes them with both of these on first use, moves a retained one back, and keeps the books balanced |
| StatsHub.CountersShow | src/stats/index.js:75-120 | what the counter objects show of a run of events, applied and waiting: global, each transport's and each protocol's messages |
| StatsHub.Hub.PeerClosed | src/stats/index.js:63-71 | the counter's timer stops, and the counter moves to the cache |
| StatsHub.Hub.ForPeer | src/stats/index.js:47-49 | finds the live or retained counter, which holds all that is known of the peer |
| StatsHub.Hub.Tick | src/stats/stat.js:138-151 | a timer empties its counter's buffer and changes no account |
| StatsHub.TrafficBalances | src/stats/index.js:75-120 | conservation in the counters themselves, between any two events: what the global counter shows, applied and waiting, is the sum of what the transport counters show and the sum of what the counters of all peers show |

## Left out

- Sockets, pull-streams, multistream-select, crypto, muxers, identify and the circuit relay: each is an operation that completes well, badly or never.
- Dialling ourselves and peers missing from the peer book: both can leave a queue running with nothing to continue it.
- User callbacks that call back into the switch in the same turn, and the answers given to callbacks later than the turn.
- Connections that complete after their dial timed out, and the concurrency limit of a peer's work queue across several searches.
- Addresses: which of them a transport can handle, their destination part and our own addresses are parameters of the search.
- The start and stop machine of the switch, incoming connection handshakes, the protocol muxer and the observer: small tables or wiring.
- Counts of the events `connection:start`, `connection:end`, `peer-mux-established` and `peer-mux-closed`: the code does not keep them balanced.
- The muxer loop inside `_onUpgrading`: muxers are tried as one operation.
- The moving averages: the samples handed to them are kept instead.
- The statistics hub's own `start` and `stop`, and how often the observer calls `onMessage` when `start` was called twice.
- The cache of old peers: a map that may drop any other entry whenever it is written or looked up.
- Deadline.FlushedInTime: timers fire exactly on time and the counter is not stopped; a queue size of zero, which divides by zero, is excluded.
- Dialer.DialQueueManager.Stop and Dialer.DialQueueManager.Clean: the loop over the snapshot takes the order of the table's keys as a parameter.
- Dialer.DialQueueManager.CloseConn: listeners are used up before the queue is woken, not after; no call made in between can see the difference, as Slots.ExecFrames shows.
- WorkConservation.CleanServes: for a clean timer that discards a running queue, which is then denied for good, the condition is sufficient only.
- Connection.ProtectDone: a `protect` that succeeds after the connection has closed throws (src/connection/base.js:115), as the raw connection is gone; the model fires `done`, which enters DISCONNECTED once more and changes nothing else.
- Tracking.ConnectionManager.Add: clearing the denylist and wiring the `muxed` listener are left to Dialer.DialQueueManager.Accept and Dialer.DialQueueManager.Advance.
- Tracking.ConnectionManager.Remove: marking the peer disconnected and the closing events are not modelled; whether a peer is connected is a parameter of the dial and of the clean timer.
- Runs.NoLeakedSlots: priorities are numbers; a dial with an undefined priority skips the bound on cold calls (src/dialer/queueManager.js:113) and still enters the cold set (src/dialer/queueManager.js:140-146), so the bound on that set fails for it.
