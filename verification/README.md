# Kiwi Code: a verified model of its protocols

This project models the stateful protocols and list algorithms of the Kiwi Code server in
Dafny and proves what they promise. Each protocol is a step system: a state, an event for
every critical section or unlocked action, `Apply` for one step and `Run` for a whole run.
Main results are statements about every run. Beside each machine stands a class (or a set
of methods) in the form of the Go code, whose methods are proved to be steps or runs of the
machine.

| file | what it models |
|---|---|
| `state_socket.dfy` | the state WebSocket: topics, reader and writer over one bounded frame queue |
| `state_socket_outcomes.dfy` | what the state connection achieves: subscribing, ending, draining, shutting down |
| `broadcast.dfy` | broadcast subscriptions in ordered, latest-only and coalescing mode |
| `terminal_stop.dfy` | durable terminal-stop markers and leases between processes |
| `terminal_stop_outcomes.dfy` | when each operation on terminal stops succeeds, and what it leaves |
| `marker_lists.dfy` | the normalised name lists inside a marker |
| `worktree_store.dfy` | thread creation, rollback, deletion and worktree cleanup with crashes |
| `worktree_store_outcomes.dfy` | what each whole operation leaves in the three stores |
| `store_mutations.dfy` | mutations of projects.json by several Store instances |
| `agent_activity.dfy` | prompt tokens and generations of agent status reports |
| `display_history.dfy` | the displayed history of a native session |
| `pty_output.dfy` | terminal output batching and flow-control credit |
| `codex_queue.dfy` | the Codex prompt queue |
| `branch_names.dfy` | branch slugs, Git branch rules, configurable prefixes |
| `orderings.dfy` | project and thread order |
| `process_names.dfy` | the search for a free process name |
| `common.dfy` | Option, Result and the three outcomes of an atomic save |

`dafny verify dfyconfig.toml` checks the whole project.

## How to read the model

- A critical section under a mutex is one event; what happens between two critical sections
  is left to any other event. A crash event may fall between any two durable steps.
- Replies of the file system, Git, the WebSocket and child processes are parameters of
  events and methods; the theorems hold for all of them.
- An atomic save has three outcomes, as `internal/atomicfile/file.go:18-69` reports them:
  not published, published with an error, published.
- Three files named `_outcomes` state, for every reachable state and every reply, when an
  operation succeeds and what it leaves; the smaller modules state this beside their machine.
- Ghost histories (the wire trace, delivered and published values, fates of submissions,
  published operations) exist only to state the theorems.

## Findings

- The lease interface has a hazard that its callers avoid. A `Commit` that fails after the
  rename (`internal/server/terminal_stop.go:1021-1026`) leaves the marker committed on disk
  but not in memory, and its caller cannot tell it from a `Commit` that failed before; a
  rollback or update that then works would destroy the committed stop
  (`FailedCommitIsAmbiguous`). Every caller in `internal/server/terminal.go` (lines 4183-4185,
  4278-4296, 4312-4333 and 4421-4422) only retains the lease after a failed `Commit`, and
  under that discipline committed stops are permanent for all write outcomes
  (`CommittedStopsArePermanent`). `CommittedSurvivesExactly` gives the exact condition step
  by step.
- A queued Codex message whose start fails returns to the head, and the queue then stays
  dormant although the session is idle: later submissions only queue behind it until a turn
  completes or the user retries (`DormancyIsReached`, `QueueMovesExactly`). The explicit
  `retry_queue` command suggests that this is intended.
- Agent status distinguishes prompts by start times only. The start time of a report is cut
  to the report's own arrival, so a prompt whose clock is ahead appears late, with its first
  report that arrives after the last generation. A prompt that started no later than one
  already shown never appears (`HiddenExactly`, `EqualGenerationsHidePrompt`). A settled
  prompt can return exactly when its clock ran more than 64 generations ahead, after 64 other
  prompts (`SettledReturnsExactly`, `EvictedPromptReturns`); a prompt that opened no earlier
  than its own start never does (`PunctualStaysSettled`).

## Model

| member | source | states |
|---|---|---|
| StateSocket.WireTraceSafety | internal/server/state_socket.go:233-475 | on every run, for the ids the client reads: a snapshot is written for the channel whose id it carries, the numbers of one id strictly increase, nothing is written for a channel after its terminal frame, and no snapshot with an id follows the end notice with that id |
| StateSocket.EndFollowsSnapshot | internal/server/state_socket.go:341-376 | an end notice on the wire is preceded by a snapshot of the same channel |
| StateSocket.LatestStateAgreement | internal/server/state_socket.go:313-339 | whenever the queue is empty and the writer idle, the last payload written for an open channel is the last one its topic handed in, as defined from the events alone, despite coalescing and dedup |
| StateSocket.SnapshotTakenExactly | internal/server/state_socket.go:313-339 | on every run a payload is taken if and only if the connection is live, the channel subscribed and not terminal, and it repeats the last one without a resnap request, or an entry for the channel waits, or fewer than 512 frames are queued; it then becomes the pending snapshot under the next number behind one entry, and otherwise nothing moves |
| StateSocket.MemoryIsHistory | internal/server/state_socket.go:298-339 | the payload and the force flag a channel remembers are the last payload handed in and whether a resnap request came since |
| StateSocket.QueuedMeansOneEntry | internal/server/state_socket.go:405-436 | `queued` of a subscribed channel holds exactly when one snapshot entry for it is in the queue or popped and unexamined; `pending` implies `queued` |
| StateSocket.AtMostOneFrameAfterUnsubscribe | internal/server/state_socket.go:284-296 | after an unsubscribe step, whatever follows, at most the frame already in the writer's hand is still written for that channel |
| StateSocket.WriterIsAwakened | internal/server/state_socket.go:398-487 | the writer is never parked, or about to park, over a nonempty queue without a wake token; the queue never exceeds 512 frames |
| StateSocket.ClientNeverTrips | internal/headless/client.go:595-612 | a client that knows the ids it subscribed never receives a snapshot that its sequence check rejects, on any server run |
| StateSocket.ResnapIsHonoured | internal/server/state_socket.go:298-339 | after a resnap request, whatever happens in between, the channel's next payload is taken exactly when the channel is served and its entry waits or the queue has room, and then gets a new sequence number and becomes pending even if it equals the last one |
| StateSocket.ChannelsStayWithinLimit | internal/server/state_socket.go:233-275 | a connection never has more than 64 open channels, although the check and the addition are separate critical sections |
| StateSocket.ReadMessages | internal/headless/client.go:575-626 | the receiver stops at the first violation: everything read before was acceptable, the frame it stops at is not, and the error says why: an unknown channel, a number that is not newer, the end of a subscription or an unexpected frame |
| StateSocket.RunKeepsInv | internal/server/state_socket.go:200-504 | every interleaving of reader, topics and writer keeps the per-channel invariant, the trace property and the queue facts |
| StateSocket.StepKeepsIds | internal/server/state_socket.go:233-504 | each critical section keeps the invariant of every channel id, opened or not |
| StateSocket.StepKeepsTrace | internal/server/state_socket.go:405-458 | each step leaves a safe wire trace |
| StateSocket.StepKeepsTidy | internal/server/state_socket.go:378-487 | each step keeps the queue bound, the wake token fact and the freshness of ids |
| StateSocket.UnsubscribedForGood | internal/server/state_socket.go:284-296 | no step resubscribes an unsubscribed channel |
| StateSocket.StateConnection.CheckSubscribe | internal/server/state_socket.go:233-244 | first critical section of subscribe: stale ids and a full table are refused, the id is consumed |
| StateSocket.StateConnection.AddChannel | internal/server/state_socket.go:246-275 | second critical section of subscribe: undecodable topics are refused, a cancelled connection adds nothing |
| StateSocket.StateConnection.QueueSubscribeError | internal/server/state_socket.go:277-282 | the refusal is queued unless the connection is cancelled or the queue is full |
| StateSocket.StateConnection.DropChannel | internal/server/state_socket.go:284-296 | marks the channel unsubscribed, drops its pending snapshot and its table entry, and nothing else |
| StateSocket.StateConnection.Unsubscribe | internal/server/state_socket.go:284-296 | the reader's unsubscribe step of the machine |
| StateSocket.StateConnection.RequestResnap | internal/server/state_socket.go:298-311 | forces the next snapshot of a live, non-terminal channel |
| StateSocket.StateConnection.QueueSnapshot | internal/server/state_socket.go:313-339 | refused, deduplicated, rejected by a full queue, coalesced into the pending slot or queued, with the exact new state in each case |
| StateSocket.StateConnection.MarkFinished | internal/server/state_socket.go:341-349 | first critical section of finishChannel: the channel becomes terminal and remembers whether it had a snapshot |
| StateSocket.StateConnection.QueueTerminal | internal/server/state_socket.go:358-375 | queues the end or error notice, or goes on to drop the channel when it cannot |
| StateSocket.StateConnection.DropFinished | internal/server/state_socket.go:373-376 | a channel whose notice could not be queued is unsubscribed |
| StateSocket.StateConnection.QueueFrame | internal/server/state_socket.go:378-396 | queues a complete frame exactly when the connection is live and the queue not full |
| StateSocket.StateConnection.NextOutbound | internal/server/state_socket.go:477-487 | pops the head of the queue, or parks the writer when there is none |
| StateSocket.StateConnection.TakePending | internal/server/state_socket.go:409-442 | the writer's second critical section: it clears `queued`, takes the pending snapshot late, and skips frames of unsubscribed channels |
| StateSocket.StateConnection.WriteFrame | internal/server/state_socket.go:429-453 | writes the frame in hand, or stops on a write error |
| StateSocket.StateConnection.RemoveTerminated | internal/server/state_socket.go:453-459 | after a terminal frame the channel leaves the table |
| StateSocket.StateConnection.Shutdown | internal/server/state_socket.go:489-504 | cancels, unsubscribes every channel in the table and empties the queue |
| StateSocketOutcomes.WriterDrains | internal/server/state_socket.go:405-487 | from every reachable state in which the writer has not stopped, its own steps empty the queue: the last payload written for every channel still open is the last handed in, every channel that ended has its notice on the wire and has left, no other channel is lost, and every accepted refusal, pong and close frame is on the wire in order |
| StateSocketOutcomes.PlainFramesKeepOrder | internal/server/state_socket.go:277-487 | on every run the refusals, pongs and close frames written, in the writer's hand and waiting are exactly those accepted, in order, while the connection lives; afterwards those written are a prefix |
| StateSocketOutcomes.SubscribeOpensExactly | internal/server/state_socket.go:233-275 | on every run a subscription opens a new channel if and only if its id is higher than every id asked for before, fewer than 64 channels are open, the topic is accepted and the connection is live |
| StateSocketOutcomes.LastIDIsHighest | internal/server/state_socket.go:233-240 | the id the connection remembers is the highest that was asked for |
| StateSocketOutcomes.PlainFrameQueuedExactly | internal/server/state_socket.go:277-282 | a refusal, pong or close frame is queued if and only if the connection is live and the queue has room |
| StateSocketOutcomes.UnsubscribeTakes | internal/server/state_socket.go:284-296 | an unsubscribe of an open channel takes effect at once and touches no other channel |
| StateSocketOutcomes.FinishTakes | internal/server/state_socket.go:341-376 | when the topic of a served channel ends, its notice is queued if there is room, an end after a snapshot and an error before any; without room the channel is unsubscribed |
| StateSocketOutcomes.FinishedIsNoticed | internal/server/state_socket.go:341-459 | on every run with an emptied queue the notice of every channel that ended is on the wire and the channel has left the table |
| StateSocketOutcomes.ShutdownTakes | internal/server/state_socket.go:489-504 | after a shutdown the table and the queue are empty and every channel is unsubscribed or was already ended on the wire |
| StateSocketOutcomes.ShutdownIsFinal | internal/server/state_socket.go:489-504 | whatever happens after a shutdown, nothing is queued or opened and at most the one frame in the writer's hand is written |
| StateSocketOutcomes.WriterEnds | internal/server/state_socket.go:461-487 | after a shutdown the writer ends, whatever it was doing |
| StateSocketOutcomes.FailureStopsWriter | internal/server/state_socket.go:429-475 | a failed write or ping ends the writer and nothing more is written |
| Broadcast.OrderedDelivery | internal/broadcast/subscription.go:124-199 | ordered mode: while open, delivered ++ in hand ++ pending equals the published sequence; after overflow or close, delivered is a prefix |
| Broadcast.CoalescedDelivery | internal/broadcast/subscription.go:124-199 | coalescing mode: while open, delivered ++ in hand ++ pending has the normal form of the published sequence and ends on the newest published value; afterwards delivered has the normal form of a prefix |
| Broadcast.LatestOnlyDelivery | internal/broadcast/subscription.go:124-146 | latest-only mode: at most one pending value, never closed by its producer, and the newest held value is the last published one |
| Broadcast.NoLostWakeup | internal/broadcast/subscription.go:124-182 | a goroutine parked over a nonempty queue has a wake token or a closed done channel; the queue respects its limit |
| Broadcast.QuietMeansDrained | internal/broadcast/subscription.go:163-199 | a parked, open subscription without a token has nothing pending |
| Broadcast.PublishDisconnectsExactly | internal/broadcast/subscription.go:124-161 | on every run a publication closes an open subscription if and only if the mode is not latest-only, as many values as the limit are pending and the value does not continue the run of the last one; otherwise it replaces the last pending value or joins the queue with a wake token |
| Broadcast.RoomKeepsOpen | internal/broadcast/subscription.go:124-161 | a subscription that its consumer does not close and whose queue never holds the limit when something is published stays open |
| Broadcast.GoroutineDrains | internal/broadcast/subscription.go:163-199 | from every reachable open state the goroutine's own steps deliver what is in hand and pending, in order, until nothing is left |
| Broadcast.ClosedForGood | internal/broadcast/subscription.go:115-182 | a closed subscription delivers at most what it held when it closed, in order, and nothing after its goroutine exited |
| Broadcast.ClosedExits | internal/broadcast/subscription.go:115-182 | closing takes effect at once, and the goroutine exits at its next wait |
| Broadcast.PushAllCollapsed | internal/broadcast/subscription.go:136-143 | coalescing a stream that was already coalesced gives the same result as coalescing the stream |
| Broadcast.CollapseCongruence | internal/broadcast/subscription.go:136-143 | normal forms may be computed piecewise: equal normal forms stay equal under concatenation |
| Broadcast.CollapseIdempotent | internal/broadcast/subscription.go:136-143 | collapsing a normal form changes nothing |
| Broadcast.CollapseWithoutKeys | internal/broadcast/subscription.go:136-143 | without keys nothing is coalesced |
| Broadcast.SplitFirstRun | internal/broadcast/subscription.go:184-199 | the first value of a normal form stands for a whole leading run of the stream |
| Broadcast.EnqueuedPushes | internal/broadcast/subscription.go:124-153 | a queue that is not latest-only grows exactly as the normal form does |
| Broadcast.StepKeepsFaithful | internal/broadcast/subscription.go:98-199 | every step of publisher, consumer and goroutine keeps the account of the history |
| Broadcast.Subscription.Enqueue | internal/broadcast/subscription.go:124-161 | the head-indexed queue implements the publish step in all three modes, including the overflow that disconnects |
| Broadcast.Subscription.CloseSubscription | internal/broadcast/subscription.go:115-122 | closing marks the subscription closed and leaves queued values to the goroutine |
| Broadcast.Subscription.Next | internal/broadcast/subscription.go:184-199 | takes the oldest pending value and resets the queue when the head catches up |
| Broadcast.Subscription.Turn | internal/broadcast/subscription.go:163-182 | one select turn of the delivery loop, or of a publisher in between |
| Broadcast.Subscription.Deliver | internal/broadcast/subscription.go:163-182 | the delivery loop over any sequence of turns is the machine run |
| TerminalStop.StopsExcludeEachOther | internal/server/terminal_stop.go:90-166 | no run, with any processes, crashes, failures and adopted markers, has an open thread lease of beginThread(p, t) together with an open project lease that was asked about t, by beginProject or by RecheckProjectThreads |
| TerminalStop.OpenLeaseIsOnDisk | internal/server/terminal_stop.go:237-282 | while a lease is held its marker is on disk, equal to memory unless a Commit failed after its rename, and nobody else holds the lock |
| TerminalStop.CommittedSurvivesExactly | internal/server/terminal_stop.go:570-752 | a step removes or rewrites a committed marker if and only if a lease whose Commit reported an error after the rename is then updated, rolled back or abandoned |
| TerminalStop.CommittedStopsArePermanent | internal/server/terminal_stop.go:605-626 | for all three outcomes of every marker write: if each caller whose Commit returned an error then only retains its lease, commits again or dies, a committed marker is never removed or changed at any later point of any run |
| TerminalStop.CleanFailuresAreHarmless | internal/server/terminal_stop.go:605-626 | if failed commits leave the old marker, as the comment at lines 620-621 assumes, committed markers are permanent whatever the callers do |
| TerminalStop.FailedCommitIsAmbiguous | internal/server/terminal_stop.go:615-625 | the discipline is needed: in every reachable state a Commit that fails before and one that fails after the rename look the same to the caller, and after the second each working rollback or update destroys the committed stop |
| TerminalStop.CommittedRunsExactly | internal/server/terminal_stop.go:570-752 | a whole run leaves every committed marker alone exactly when none of its steps is one of those that forget a commit |
| TerminalStop.LateCommitFailureLosesStop | internal/server/terminal_stop.go:1021-1026 | a concrete run of the lease interface that ignores the discipline: the write fails after its rename and a rollback removes the committed stop |
| TerminalStop.RemovalIsOwned | internal/server/terminal_stop.go:685-752 | a marker disappears only through a rollback or an abandoned own begin of the lease that holds its lock and its token; an adopted marker is never abandoned |
| TerminalStop.OpenLeaseIsVisible | internal/server/terminal_stop.go:171-183 | while a thread lease is open no pair of reads can report the thread as not stopped |
| TerminalStop.RunKeepsInv | internal/server/terminal_stop.go:90-335 | every interleaving keeps locks, markers, exclusion and the account of threads still to be read |
| TerminalStop.StepKeepsMatch | internal/server/terminal_stop.go:237-335 | locks are held by exactly the processes between lock and release, and each held lease matches the disk |
| TerminalStop.StepKeepsExclusion | internal/server/terminal_stop.go:107-166 | each step keeps the exclusion: whichever scope passes its check last would have seen the other's marker |
| TerminalStop.StepKeepsAsked | internal/server/terminal_stop.go:633-661 | every thread a project lease was asked about is found unmarked or still to be read |
| TerminalStop.NewThreadOpen | internal/server/terminal_stop.go:107-123 | a thread lease is handed out only over a project without marker |
| TerminalStop.NewProjectCleared | internal/server/terminal_stop.go:140-166 | a project lease clears a thread only while that thread has no marker |
| TerminalStop.BeginThreadStop | internal/server/terminal_stop.go:90-123 | one uninterrupted beginThread ends exactly as the machine run of its steps, for every file system reply |
| TerminalStop.BeginProjectStop | internal/server/terminal_stop.go:125-166 | one uninterrupted beginProject ends exactly as the machine run of its steps |
| TerminalStop.CheckThreads | internal/server/terminal_stop.go:143-165 | reads the thread markers in order and stops at the first that exists or cannot be read |
| TerminalStop.AcquireLease | internal/server/terminal_stop.go:237-282 | takes the lock, adopts the marker found or writes a new one, and lets go on every error |
| TerminalStop.StopLease.UpdateCleanupRecipe | internal/server/terminal_stop.go:570-599 | refuses a closed lease, verifies ownership, leaves a committed marker alone, otherwise replaces the recipe; a failed write closes the lease; the error returned for each case |
| TerminalStop.StopLease.CommitLease | internal/server/terminal_stop.go:605-626 | refuses a closed lease; marks the marker committed; a failed write returns an error and keeps the lease and its old copy in memory |
| TerminalStop.StopLease.RollbackLease | internal/server/terminal_stop.go:679-704 | refuses a closed lease; removes the marker only if it is owned and not committed, and releases the lock in any case |
| TerminalStop.StopLease.AbandonAfterConflict | internal/server/terminal_stop.go:741-752 | rolls back an own marker, leaves an adopted one; a closed lease changes nothing |
| TerminalStop.StopLease.RetainLease | internal/server/terminal_stop.go:665-675 | refuses a closed lease, else releases the lock and keeps the marker |
| TerminalStop.RecheckProjectThreads | internal/server/terminal_stop.go:633-661 | refuses a closed or thread lease unchanged; otherwise the lease stays open exactly when no further thread has a marker, an unreadable marker closes it and an existing one abandons it, as in the machine run |
| TerminalStop.ReadThreadMarkers | internal/server/terminal_stop.go:646-660 | reads the further thread markers in order and stops at the first that exists or cannot be read |
| TerminalStop.AcquireExistingLease | internal/server/terminal_stop.go:288-335 | takes the lock of a marker left behind and adopts it unchanged, or leaves everything as it was |
| TerminalStop.RecoveryOpens | internal/server/terminal_stop.go:288-335 | a process that finds an unheld marker opens it in three steps, adopted and unchanged |
| TerminalStopOutcomes.CommitTakes | internal/server/terminal_stop.go:605-626 | on every run Commit returns no error if and only if the lease is still the owner and the marker is committed already or was replaced; the marker on disk is then the old one committed and the lease goes on; every failure and what it leaves is told as well |
| TerminalStopOutcomes.SuccessfulCommitIsForever | internal/server/terminal_stop.go:605-626 | a stop whose Commit returned no error stays on disk, recipe and all, on every continuation in which callers heed failed commits |
| TerminalStopOutcomes.UpdateTakes | internal/server/terminal_stop.go:570-599 | on every run UpdateCleanupRecipe succeeds if and only if the lease owns an uncommitted marker and the write was published; the marker then holds exactly the new thread and session names under its old token |
| TerminalStopOutcomes.RollbackTakes | internal/server/terminal_stop.go:679-704 | on every run Rollback releases the lock; it removes the marker, and returns no error, if and only if the lease owns an uncommitted marker and the file could be removed |
| TerminalStopOutcomes.RetainTakes | internal/server/terminal_stop.go:665-675 | Retain, and the death of the process, release the lock and leave the marker |
| TerminalStopOutcomes.ThreadStopBegins | internal/server/terminal_stop.go:90-123 | from any state of the other processes beginThread returns a lease if and only if the project is seen unmarked twice, the lock is free and the marker can be adopted or written; a failed begin leaves the lock free and a marker it found untouched, and takes its own back if it can |
| TerminalStopOutcomes.ProjectStopBegins | internal/server/terminal_stop.go:125-166 | from any state of the other processes beginProject returns a lease if and only if the lock is free, the marker can be adopted or written and every thread can be read and is unmarked; it has then cleared every thread |
| TerminalStopOutcomes.ChecksOutcome | internal/server/terminal_stop.go:143-165 | the reads of a project lease end at the first thread that cannot be read or is marked, and clear all threads before it |
| TerminalStopOutcomes.RecheckTakes | internal/server/terminal_stop.go:633-661 | on every run the recheck returns no error if and only if every thread can be read and is unmarked; a marker that cannot be read keeps the project's own, a marked thread takes the project's own uncommitted marker back |
| TerminalStopOutcomes.ExistingOpens | internal/server/terminal_stop.go:288-335 | from any state acquireExisting returns the marker, adopted and unchanged, if and only if it exists, its lock is free and it can be read |
| TerminalStopOutcomes.UnmarkedThreadIsNotStopped | internal/server/terminal_stop.go:171-183 | a thread is reported as not stopped if and only if both markers could be read and neither exists |
| MarkerLists.NormalizeNames | internal/server/terminal_stop.go:801-833 | fails exactly on an empty name, otherwise lists each given name once in increasing order |
| MarkerLists.ValidateNames | internal/server/terminal_stop.go:960-982 | accepts exactly the strictly increasing lists without empty names |
| MarkerLists.NormalFormIsAccepted | internal/server/terminal_stop.go:936-983 | what was normalised before writing is accepted when read, and the normal form depends only on the set of names |
| MarkerLists.IncreasingIsUnique | internal/server/terminal_stop.go:801-816 | a set of names has one increasing listing |
| MarkerLists.SortedIsIncreasing | internal/server/terminal_stop.go:814-815 | sorting distinct names yields a strictly increasing listing of the same names |
| WorktreeStore.NoLeakedWorktree | internal/project/cleanup.go:191-279 | in every reachable state, with crashes between any two durable steps, each existing worktree the Store created is owned by a persisted thread or named by a persisted orphan record |
| WorktreeStore.RemovalSparesLiveThreads | internal/project/cleanup.go:350-460 | no step of creation, deletion, rollback, recovery or cleanup removes a worktree of a persisted thread that is not ready for cleanup |
| WorktreeStore.StagesMoveOnly | internal/project/store.go:1987-2148 | persisted flags move only running to pending, pending to running, pending to ready, ready to gone; ready implies pending, is never committed, and disappears only after its worktree is gone |
| WorktreeStore.MemoryMatchesFile | internal/project/store.go:361-378 | whenever no operation is in flight, memory holds what projects.json holds, under all three save outcomes |
| WorktreeStore.RecoveryFinishes | internal/project/cleanup.go:231-279 | the last step of startup recovery leaves no thread ready for cleanup and no creation intent |
| WorktreeStore.RecoverySucceeds | internal/project/store.go:401-425 | from every reachable state a restart whose removals and saves succeed finishes recovery, in whatever order threads and records are visited: no ready thread and no creation intent is left |
| WorktreeStore.RunKeepsInv | internal/project/cleanup.go:191-460 | every run keeps the invariant that the statements above are read from |
| WorktreeStore.BeginKeepsInv | internal/project/store.go:2826-2842 | starting any operation from a fresh reload keeps the invariant |
| WorktreeStore.CreateKeepsInv | internal/project/store.go:2150-2221 | each durable step of a creation, its undo and its intent keeps the invariant |
| WorktreeStore.DeleteOrFlagKeepsInv | internal/project/store.go:1987-2114 | each durable step of deletion, rollback and commit keeps the invariant |
| WorktreeStore.RecoverKeepsInv | internal/project/store.go:2116-2148 | each durable step of startup recovery keeps the invariant |
| WorktreeStore.CleanKeepsInv | internal/project/cleanup.go:350-460 | each durable step of the periodic cleanup keeps the invariant |
| WorktreeStore.Store.AddThread | internal/project/store.go:1851-1919 | the whole creation equals the machine run of its durable steps; the thread is persisted exactly when the result says so |
| WorktreeStore.Store.CreateWorktreeThread | internal/project/store.go:2150-2221 | records the intent before Git, and undoes on every later failure |
| WorktreeStore.Store.SaveAddedThread | internal/project/store.go:1884-1916 | saves the list, undoes the worktree when nothing was published, clears the intent after success |
| WorktreeStore.Store.CleanupFailedCreation | internal/project/store.go:2196-2202 | removes the worktree and drops the intent only if the removal succeeded |
| WorktreeStore.Store.ClearWorktreeCreationIntent | internal/project/cleanup.go:208-229 | drops only this thread's intent and restores it in memory when the save fails |
| WorktreeStore.Store.RecordWorktreeCreationIntent | internal/project/cleanup.go:191-206 | saves the record marked as an intent, and restores memory when the save fails |
| WorktreeStore.Store.RemoveUnfinishedWorktrees | internal/project/cleanup.go:249-270 | decides each intent in order: an active thread keeps its worktree, any other worktree is removed, up to the first failure |
| WorktreeStore.Store.RecoverWorktreeCreationIntents | internal/project/cleanup.go:231-279 | startup recovery of unfinished creations: worktrees first, one save without the intents after |
| WorktreeStore.Store.Delete | internal/project/store.go:2573-2613 | deletes a project: nothing while a thread is pending, all orphan records saved before the threads leave projects.json |
| WorktreeStore.Store.RememberThreads | internal/project/store.go:2584-2592 | remembers the worktree of every thread of the project |
| WorktreeStore.Store.DeleteThread | internal/project/store.go:2531-2571 | saves the orphan record before the thread leaves projects.json; a pending thread is not deleted |
| WorktreeStore.Store.BeginThreadCreationRollback | internal/project/store.go:1987-2018 | marks a running thread pending; reports whether it is pending afterwards |
| WorktreeStore.Store.CommitThreadCreation | internal/project/store.go:2087-2114 | clears both flags of a pending thread; a ready thread stays as it is and is reported as not committed |
| WorktreeStore.Store.FinalizeThreadCreationRollback | internal/project/store.go:2024-2074 | publishes ready, then removes Git artifacts, then the thread; each failure stops before the next stage |
| WorktreeStore.Store.FinishRollback | internal/project/store.go:2050-2070 | removes the worktree and then the thread, keeping the thread when the removal fails |
| WorktreeStore.Store.RemoveReadyWorktrees | internal/project/store.go:2116-2136 | removes the worktrees of all ready threads in order, up to the first failure |
| WorktreeStore.Store.RecoverRollbacks | internal/project/store.go:2116-2148 | startup recovery of rollbacks: worktrees first, one save without the recovered threads after |
| WorktreeStore.Store.DecideRecords | internal/project/cleanup.go:395-451 | keeps, prunes or removes each record in turn; a record is dropped only when its worktree is gone |
| WorktreeStore.Store.CleanupOrphanedWorktrees | internal/project/cleanup.go:350-460 | drops records of active worktrees, adds discovered ones, decides the rest and saves what is kept |
| WorktreeStoreOutcomes.CreationTakes | internal/project/store.go:1851-1919 | for every reply of Git and the file system: whether the thread, its worktree and its creation record are there after a whole creation, each if and only if, and that nothing else moved |
| WorktreeStoreOutcomes.CreationLeavesNoIntent | internal/project/cleanup.go:191-229 | a creation in which everything succeeds leaves orphaned-worktrees.json as it was; a failed one whose removal and last save succeed leaves all three stores as they were |
| WorktreeStoreOutcomes.DeletionTakes | internal/project/store.go:2531-2613 | on every run the threads leave projects.json if and only if none is unknown or pending, the records of their worktrees were saved first and the last save became visible; each worktree is recorded under its own thread and no other record changes |
| WorktreeStoreOutcomes.FlagsTake | internal/project/store.go:1987-2114 | marking and committing a creation change exactly the flags of a running or of a pending thread that is not ready, if the save becomes visible |
| WorktreeStoreOutcomes.FinalizationTakes | internal/project/store.go:2024-2074 | finalising removes a pending thread if and only if its ready flag is published, its worktree could be removed and the last save becomes visible; its worktree is touched only after the flag is published |
| WorktreeStoreOutcomes.CleanupTakes | internal/project/cleanup.go:350-460 | the whole cleanup: Git loses exactly the worktrees that were removed, and the saved records are exactly the candidates that were not dropped, unchanged |
| WorktreeStoreOutcomes.SweepDecides | internal/project/cleanup.go:395-451 | after any number of decided records, in any order, what is kept and what Git still has |
| WorktreeStoreOutcomes.RecoveryTakes | internal/project/store.go:401-425 | a restart whose removals and saves succeed removes exactly the ready threads, the creation intents, the worktrees of those threads and the worktrees of intents that no remaining thread uses |
| StoreMutations.FileIsFoldOfPublished | internal/project/store.go:341-378 | with any number of instances, crashes and failed saves, projects.json is the fold of the published operations in lock order: no update is lost |
| StoreMutations.MemoryEqualsFileOnReturn | internal/project/store.go:361-373 | when a mutator that could read the file returns, its memory equals the file, for all three save outcomes |
| StoreMutations.MemoryIsSomePublishedState | internal/project/store.go:2826-2842 | what an instance holds is always the file as it stood after some published operations, and at most one instance is mid-mutation |
| StoreMutations.MemoryNeverGoesBack | internal/project/store.go:2826-2842 | an instance never returns to an older state and published operations stay published |
| StoreMutations.StepKeepsInv | internal/project/store.go:341-378 | every step of every instance keeps the fold, the lock and the copies |
| StoreMutations.SaveKeepsInv | internal/project/store.go:361-373 | a save in any of its three outcomes keeps the fold and the saver's copy |
| StoreMutations.Store.WithProjectMutation | internal/project/store.go:341-373 | one whole mutator: lock, reload, operate, save or undo, release; result, memory and file for every outcome |
| StoreMutations.MutationTakes | internal/project/store.go:341-373 | from any state with the lock free: the file becomes the operation's result on the file, whatever the instance had in memory, if and only if the file could be read, the operation succeeded and the save became visible |
| StoreMutations.CrashLeavesFile | internal/project/store.go:341-373 | on every run a crash frees the lock and leaves the file |
| AgentActivity.StatusConverges | internal/server/pi_activity.go:114-228 | every delivery order, with duplicates, that contains the newest prompt's terminal report ends in that terminal state |
| AgentActivity.DeliveryOrderIsIrrelevant | internal/server/pi_activity.go:114-228 | two deliveries of the same reports, reordered, repeated or delayed, leave the same status |
| AgentActivity.AppliedExactly | internal/server/pi_activity.go:142-196 | a report is applied if and only if its prompt is newer than all before it, or is the newest and not settled |
| AgentActivity.AppliedByGeneration | internal/server/pi_activity.go:114-228 | with any clocks and start times: a report is applied if and only if its prompt is not among the last 64 ended ones, and is the current one or carries a later effective generation than the last opening report |
| AgentActivity.HiddenExactly | internal/server/pi_activity.go:290-295 | with any clocks: a prompt that is neither current nor recently ended can appear in some continuation if and only if it started after the last effective generation |
| AgentActivity.HiddenForGood | internal/server/pi_activity.go:290-295 | a prompt that is not current and started no later than the last generation is never applied again, even after eviction of its token |
| AgentActivity.OpeningsIncrease | internal/server/pi_activity.go:290-301 | with any clocks prompts open in strictly increasing order of their effective generations |
| AgentActivity.StatusIsLastApplied | internal/server/pi_activity.go:203-228 | with any clocks the status of a key is that of its last applied report |
| AgentActivity.AppliedNeverGoesBack | internal/server/pi_activity.go:290-301 | applied reports never return to an older prompt |
| AgentActivity.SettledStaysSettled | internal/server/pi_activity.go:267-288 | after a prompt's terminal report no report of it is applied again, even after its token left the 64-token history |
| AgentActivity.ProcessSummarises | internal/server/pi_activity.go:114-228 | after any run the entry is determined by the newest prompt: active and working, or settled with its first outcome |
| AgentActivity.AdmitDecides | internal/server/pi_activity.go:142-196 | the token, history and generation checks together decide exactly by generation |
| AgentActivity.TokenlessNeverSupersedes | internal/server/pi_activity.go:197-202 | once an update with a token was applied, tokenless updates of that key are ignored for good |
| AgentActivity.HistoryIsBounded | internal/server/pi_activity.go:279-288 | the retired-token history never exceeds 64 tokens |
| AgentActivity.ArrivalOrderCounts | internal/server/pi_activity.go:100-110 | without tokens every update is applied and the status is that of the last |
| AgentActivity.MissingStartNeverSupersedes | internal/server/pi_activity.go:150-165 | once an applied update has carried a start time, even one its prompt learnt late, an update without one can no longer begin another prompt |
| AgentActivity.UnstampedRule | internal/server/pi_activity.go:166-185 | before any start time is known a report is applied if and only if its prompt has not ended recently and it says working, or reports on the current prompt, or nothing is current |
| AgentActivity.EqualGenerationsHidePrompt | internal/server/pi_activity.go:132-140 | in any run, once another prompt was opened with a generation not before its own start time, no report of a prompt is ever applied |
| AgentActivity.ReturnsExactly | internal/server/pi_activity.go:267-295 | with any clocks, recently ended prompts included: a prompt that is not current can appear in some continuation if and only if its start exceeds the last generation by more than the number of prompts that must still open before its token leaves the 64-token history; how late the continuation arrives does not matter |
| AgentActivity.StaysBelowBar | internal/server/pi_activity.go:267-295 | necessity on every continuation: below that bar a prompt stays hidden whatever is reported |
| AgentActivity.SettledReturnsExactly | internal/server/pi_activity.go:267-288 | a prompt that has just settled can return if and only if its start lies more than 64 generations after the last one |
| AgentActivity.PunctualStaysSettled | internal/server/pi_activity.go:132-140 | with any clocks of the other prompts: a prompt opened by a report that arrived no earlier than its start is never applied again after its terminal report |
| AgentActivity.EvictedPromptReturns | internal/server/pi_activity.go:279-288 | why settled prompts need the arrival bound: one whose start time lies far in the future is applied again after 64 other prompts have ended |
| AgentActivity.UnsettledShowsWorking | internal/server/pi_activity.go:148-164 | a newest prompt without terminal report shows as working |
| AgentActivity.Tracker.AdmitPrompt | internal/server/pi_activity.go:142-196 | the branch structure of the update with a token computes the same decision and order record |
| AgentActivity.Tracker.UpdateAgentTokenAt | internal/server/pi_activity.go:114-228 | updates the entry of its key exactly as specified and touches no other key |
| AgentActivity.Tracker.Snapshot | internal/server/pi_activity.go:303-324 | one activity per thread, whatever the map order: working if any session works, else finished if any has finished, and the latest of the sessions with that status |
| AgentActivity.SnapshotIsDetermined | internal/server/pi_activity.go:303-334 | the shown activity of a thread is unique |
| DisplayHistory.DisplayHistoryEvent | internal/server/pi_native.go:961-1086 | the outcome for any entries and leaf: an id error, a real cycle, a really missing entry, the first malformed message, or the display of the root path |
| DisplayHistory.IndexEntries | internal/server/pi_native.go:967-976 | fails at the first entry without an id or with an id seen before, and says which; otherwise indexes every entry |
| DisplayHistory.Walk | internal/server/pi_native.go:978-999 | terminates with the root-to-leaf path, or with a cycle or missing entry that exists |
| DisplayHistory.ReverseInPlace | internal/server/pi_native.go:1000-1002 | the swap loop reverses the path |
| DisplayHistory.RootPathIsUnique | internal/server/pi_native.go:978-1002 | there is at most one root path |
| DisplayHistory.FailuresAreReal | internal/server/pi_native.go:982-991 | when a root path exists the walk can report neither a cycle nor a missing entry |
| DisplayHistory.CleanPathIsShown | internal/server/pi_native.go:961-1086 | a session with a well-formed root path has exactly one outcome, its display |
| DisplayHistory.BoundaryMeaning | internal/server/pi_native.go:1004-1022 | a compaction's boundary is the one earlier entry of the path whose id it keeps from |
| DisplayHistory.RelocateCompactions | internal/server/pi_native.go:1004-1023 | the two maps hold, per boundary entry, its compactions in path order, and exactly the relocated ids |
| DisplayHistory.EmitCards | internal/server/pi_native.go:1045-1080 | emits the display, or fails at the first malformed message of the path |
| DisplayHistory.ShownExactlyOnce | internal/server/pi_native.go:1045-1080 | every message, compaction and branch summary of the path is emitted exactly once and nothing else is |
| DisplayHistory.ShownAsOftenAsOnPath | internal/server/pi_native.go:1045-1080 | messages, compactions and branch summaries are emitted as often as the path has them, every other entry never |
| DisplayHistory.SharedBoundaryKeepsOrder | internal/server/pi_native.go:1004-1050 | compactions that keep from the same entry are emitted in path order |
| DisplayHistory.MessagesKeepOrder | internal/server/pi_native.go:1045-1080 | messages and branch summaries keep their path order |
| DisplayHistory.RelocatedSitsAtBoundary | internal/server/pi_native.go:1045-1050 | a relocated compaction is emitted after everything of earlier entries and before its boundary entry's own card |
| DisplayHistory.OthersStay | internal/server/pi_native.go:1052-1079 | every other shown entry closes its own place |
| PtyOutput.OutputIsConserved | internal/server/websocket_transport.go:223-331 | for any chunks, timer firings, credit waits and write failures the frames join to a prefix of the input, to input less pending while running, to all of it on a clean close; frames are nonempty and at most 65536 bytes |
| PtyOutput.PendingHasTimer | internal/server/websocket_transport.go:295-331 | unflushed bytes at the select have an armed timer, are more than 4096 and fewer than 65536; outstanding credit stays within 393216 |
| PtyOutput.CreditIsBoundedAndAwake | internal/server/websocket_transport.go:119-155 | under every interleaving outstanding equals granted less settled and is within the limit, and a parked reservation that would fit has a token, an acknowledger about to post one, or a closed stop |
| PtyOutput.FullAcknowledgementUnblocks | internal/server/websocket_transport.go:119-138 | a frame-sized reservation is granted once everything is acknowledged |
| PtyOutput.ClosingFlushesExactly | internal/server/websocket_transport.go:305-321 | on every run the end of the PTY output ends the loop cleanly, with the whole input written, if and only if nothing is pending or the reservation is granted and the frame accepted |
| PtyOutput.TimerFlushesExactly | internal/server/websocket_transport.go:322-327 | on every run the armed timer writes everything pending and the loop goes on if and only if that flush goes through |
| PtyOutput.StopWritesNothing | internal/server/websocket_transport.go:305-308 | a stop ends the loop without a frame, and a loop that has ended writes nothing more |
| PtyOutput.ChunkIsCutUp | internal/server/websocket_transport.go:282-302 | a chunk and what was pending are cut into as many full frames as they fill; a rest up to 4096 bytes is a frame of its own, a larger one stays pending |
| PtyOutput.WillingBrowserGetsEverything | internal/server/websocket_transport.go:223-331 | with a browser that accepts and acknowledges, the loop never ends by itself, and every byte of every chunk is written when the output ends |
| PtyOutput.AcksAddUp | internal/server/websocket_transport.go:140-155 | only the sum of the acknowledgements matters: the count is what was outstanding less that sum, and never less than zero |
| PtyOutput.GrantedExactly | internal/server/websocket_transport.go:119-138 | a waiting reservation is granted if and only if the acknowledgements before the stop leave room for it |
| PtyOutput.AcknowledgementTakes | internal/server/websocket_transport.go:140-155 | on every run of the bridge an acknowledgement lowers the count by the bytes it names, as far as there are any, and touches nothing else |
| PtyOutput.CreditCountsFrames | internal/server/websocket_transport.go:119-138 | as long as nothing is acknowledged the outstanding count is the number of bytes in the frames written |
| PtyOutput.RousedReservationIsGranted | internal/server/websocket_transport.go:119-155 | on every run an acknowledgement that makes room lets the parked reservation through once the token is posted |
| PtyOutput.ReservationAtOnce | internal/server/websocket_transport.go:119-138 | on every run a reservation that fits is granted at once, and a stop ends one that waits |
| PtyOutput.AppendMoves | internal/server/websocket_transport.go:282-302 | the chunk-splitting loop moves the whole chunk, or stops at a failed flush with nothing lost before it |
| PtyOutput.RunIsFaithful | internal/server/websocket_transport.go:223-331 | every run keeps the account of input, frames and pending bytes |
| PtyOutput.TerminalOutputCredit.ReserveBytes | internal/server/websocket_transport.go:119-138 | grants after the first acknowledgements that make room, refuses only when none do before the stop |
| PtyOutput.ReservationFits | internal/server/websocket_transport.go:119-138 | the waiting loop agrees with the recursive description used by the bridge |
| PtyOutput.PtyWebSocketBridge.Flush | internal/server/websocket_transport.go:261-281 | disarms the timer, reserves credit, writes the pending bytes as one frame |
| PtyOutput.PtyWebSocketBridge.AppendChunk | internal/server/websocket_transport.go:282-302 | fills frames up to 65536 bytes, flushes small remainders at once, arms the timer for the rest |
| PtyOutput.PtyWebSocketBridge.WritePTYOutput | internal/server/websocket_transport.go:305-331 | the select loop over any events is the machine run |
| CodexQueue.PromptsAreFifo | internal/server/codex_native.go:471-595 | under every interleaving the accepted messages in submission order are started ++ in hand ++ queued, so nothing is lost, doubled or overtaken |
| CodexQueue.EverySubmissionIsAnswered | internal/server/codex_native.go:471-496 | every admitted submission is answered once, in the order of admission |
| CodexQueue.SubmissionAcceptedExactly | internal/server/codex_native.go:471-595 | on every run an undisturbed submission is accepted if and only if the message is valid, the session not stopped, and it has to wait, or the first attempt is on record and the provider takes it; where the message goes in each case |
| CodexQueue.AdvanceStartsExactly | internal/server/codex_native.go:509-595 | on every run an undisturbed advance starts the head if and only if the session is idle and not stopped, something waits, the first attempt is on record and the provider takes it; otherwise the queue is as before |
| CodexQueue.StopEndsStarts | internal/server/codex_native.go:478-482 | after a stop no message is started any more, unless a turn/start was outstanding |
| CodexQueue.RunningTurnHolds | internal/server/codex_native.go:483-494 | while a turn runs no message is started before it completes or the provider exits |
| CodexQueue.WaitingQueueIsTended | internal/server/codex_native.go:509-528 | a live idle session with waiting messages has somebody about to take the next one, unless a queued start failed since the last notification |
| CodexQueue.DormantUntilTold | internal/server/codex_native.go:485-494 | a dormant queue only grows: nothing starts a message before a turn completes or a retry is asked for |
| CodexQueue.QueueMovesExactly | internal/server/codex_native.go:509-528 | in every reachable state between two calls with a message waiting, and for every choice of allowed notifications: some continuation starts a message if and only if the session is not stopped and either a completed turn is allowed, or an advance is pending or a retry allowed while the session is idle or may still exit |
| CodexQueue.PutBackIsDormantExactly | internal/server/codex_native.go:521-527 | on every run, after a failed queued start has returned its message to the head the queue moves again without a completed turn, a retry or an exit exactly when an advance was already pending and the session is idle and not stopped |
| CodexQueue.FailedStartIsDormant | internal/server/codex_native.go:535-558 | on every run, a queued start that startPrompt refuses puts the message back at the head; the queue then moves again unaided under the same condition |
| CodexQueue.RejectedStartIsDormant | internal/server/codex_native.go:576-595 | the same for a turn/start that is refused or gets no reply; the session is idle then, so that only a pending advance of a session that is not stopped moves the queue unaided |
| CodexQueue.DormancyIsReached | internal/server/codex_native.go:471-595 | a run from a fresh session reaches that state: one message started, one accepted and waiting, nothing working and nothing about to move |
| CodexQueue.ToldQueueResumes | internal/server/codex_native.go:691-693 | from every reachable dormant state a completed turn, or a retry while idle, lets the head of the queue start |
| CodexQueue.RunKeepsInv | internal/server/codex_native.go:191-297 | turn notifications, stops and exits keep conservation and tending |
| CodexQueue.StepKeepsConserved | internal/server/codex_native.go:471-595 | each critical section conserves the messages |
| CodexQueue.StepKeepsTended | internal/server/codex_native.go:266-282 | each critical section keeps a waiting queue tended |
| CodexQueue.CodexProcess.ExamineSubmission | internal/server/codex_native.go:471-496 | prompt's look at the state: refuse, queue behind a turn or other messages, or start |
| CodexQueue.CodexProcess.ExamineQueue | internal/server/codex_native.go:509-520 | advanceQueue's look at the state: nothing to do, or take the head |
| CodexQueue.CodexProcess.BeginPrompt | internal/server/codex_native.go:530-563 | startPrompt's critical section with each of its refusals |
| CodexQueue.CodexProcess.FinishPrompt | internal/server/codex_native.go:576-595 | the reply to turn/start: started, or idle again with the message refused or on its way back |
| CodexQueue.CodexProcess.PutBackHead | internal/server/codex_native.go:521-527 | the failed message returns to the head of the queue |
| CodexQueue.CodexProcess.Prompt | internal/server/codex_native.go:471-496 | one undisturbed submission is the machine run of its steps and returns its fate |
| CodexQueue.CodexProcess.AdvanceQueue | internal/server/codex_native.go:509-528 | one undisturbed queue advance is the machine run of its steps |
| BranchNames.GeneratedBranchesAreValid | internal/project/store.go:2223-2232 | for any accepted prefix, any title and any thread id the initial and the named branch pass validGitBranchName |
| BranchNames.TailDoesNotMatter | internal/project/store.go:2327-2344 | a prefix with a safe tail is valid exactly when the prefix is usable, whatever the tail |
| BranchNames.ValidPartByPart | internal/project/store.go:2327-2344 | the tests of the code are Git's rules part by part, the slash tests included |
| BranchNames.EmptyPartExactly | internal/project/store.go:2327-2337 | the four tests for slashes and the empty name are together exactly the test for an empty part |
| BranchNames.PrefixAcceptedExactly | internal/project/store.go:2257-2269 | a configured prefix is accepted if and only if, trimmed, it has 1 to 100 characters and is usable, with the error of each refusal |
| BranchNames.TrimSpaceMeans | internal/project/store.go:2257-2259 | trimming takes white space off both ends and nothing else |
| BranchNames.BranchNamesItsThread | internal/project/store.go:2223-2232 | a branch starts with the prefix and ends with the first eight characters of the thread id, so threads that differ there never share a branch |
| BranchNames.BranchSlug | internal/project/store.go:2495-2517 | the loop with its early exit computes the words of the title joined by dashes and cut at 40 characters, or 41 when the 40th is a dash |
| BranchNames.SeparatorSplits | internal/project/store.go:2495-2517 | every character that is no letter or digit separates: the words on its two sides are joined by one dash, if there are any on both |
| BranchNames.OneWordIsKept | internal/project/store.go:2495-2517 | letters and digits without a separator are kept as they are, which with the row above determines the words of every title |
| BranchNames.SlugKeepsWords | internal/project/store.go:2495-2517 | a slug is the words of the title cut after 40 characters, or after the 41st when the 40th is a dash; a title without words is named thread |
| BranchNames.SlugIsDashed | internal/project/store.go:2495-2517 | a slug is nonempty, at most 41 characters, and has no leading, trailing or doubled dash |
| BranchNames.SlugIsIdempotent | internal/project/store.go:2495-2517 | making a slug of a lower-case slug changes nothing |
| BranchNames.NamingIsIdempotent | internal/project/store.go:2495-2517 | the whole function, lower-casing included, maps a slug to itself, because lower-casing ASCII text fixes every character a slug can hold |
| BranchNames.NormalizationIsStable | internal/project/store.go:2257-2269 | an accepted prefix is accepted again unchanged and has 1 to 100 characters |
| BranchNames.ConfiguredBranchesAreValid | internal/project/store.go:2236-2246 | whichever of project, profile and default prefix applies, the branches of a new thread are valid and start with that prefix |
| BranchNames.DefaultPrefixIsUsable | internal/project/store.go:2236-2246 | the built-in default prefix passes the same check |
| Orderings.SwapToFront | internal/project/store.go:1446-1461 | the in-place swap loop puts the new project first of its profile, keeps the others' order and leaves every other slot alone |
| Orderings.AddedFirstMeans | internal/project/store.go:1446-1461 | the resulting list is a permutation of the old one with the new project, and is determined by the request |
| Orderings.SlotsDetermineList | internal/project/store.go:1718-1760 | other profiles' slots and the order within the profile determine the list |
| Orderings.SlotsConserve | internal/project/store.go:1748-1754 | rearranging one profile within its slots loses and doubles nothing |
| Orderings.ReorderedMeans | internal/project/store.go:1720-1760 | a reordered list is a permutation of the old one and is determined by the request |
| Orderings.TakeInOrder | internal/project/store.go:1734-1746 | succeeds exactly when the request names every item once, and then yields the items in that order |
| Orderings.PartitionIsStable | internal/project/store.go:1791-1800 | active threads precede settled ones, neither group is reordered, none is lost |
| Orderings.Partition | internal/project/store.go:1791-1800 | the two-list loop computes that partition |
| Orderings.ProjectList.Add | internal/project/store.go:1422-1473 | errors and result of adding a project, memory equal to the file for every save outcome |
| Orderings.ProjectList.ReorderProjects | internal/project/store.go:1720-1760 | errors and result of reordering one profile, memory equal to the file for every save outcome |
| Orderings.ProjectList.ReorderThreads | internal/project/store.go:1763-1810 | errors and result of reordering the threads of the first project with the id |
| ProcessNames.FindName | internal/server/process.go:286-306 | in unique mode the search ends within one try more than there are windows with the first free candidate; otherwise it fails exactly when the name is taken |
| ProcessNames.TakenCandidatesAreFew | internal/server/process.go:286-306 | pigeonhole: distinct candidates that are all taken cannot outnumber the windows |
| ProcessNames.CandidatesDiffer | internal/server/process.go:305-305 | the numbered names are pairwise distinct |
| ProcessNames.DecimalIsInjective | internal/server/process.go:305-305 | different suffixes print differently |
| ProcessNames.FirstFreeIsUnique | internal/server/process.go:286-306 | the name returned is determined by the windows and the base name |

## Left out

General:

- HTTP handlers, the WebSocket and JSON formats, process spawning, tmux, Git, Chrome and the
  file system calls themselves; their replies are parameters.
- Real time, tickers, deadlines and retention days: times are abstract numbers, timers and
  retention verdicts are events.
- Random identifiers are assumed fresh: a new thread, worktree path or marker token never
  repeats an old one.
- File modes, symlink checks and permission repair. Of `flock` only mutual exclusion and
  release on crash are kept.
- 64-bit sequence numbers and counters are unbounded numbers.

By component:

- StateSocket: the per-channel context is not a separate flag, because it is cancelled only
  together with the connection, an unsubscribe or the terminal flag. The `resnap` channel to
  the topic and the `done` signal of a close frame carry no queue state. A payload equal to
  the initial empty one counts as already sent, as `bytes.Equal` with a nil slice does.
- Broadcast: the broker's set of subscriptions; each subscription sees the same publications.
- TerminalStop: listing all markers at startup; path encoding is taken to be injective, so a
  path is the identity it encodes. Session and thread lists enter the protocol already
  normalised (see MarkerLists). Markers keep the fields the protocol reads.
- TerminalStop.CommittedStopsArePermanent: the discipline of the callers is a hypothesis; the
  handlers in `internal/server/terminal.go` that follow it are not modelled.
- TerminalStop.StopLease.RollbackLease: errors of the final directory sync and of unlocking,
  which are reported after the state has changed, are not among the returned errors.
- WorktreeStore: branches, which are deleted in the same step as their worktree; the
  environment setup status. The orphan list in memory may differ from its file after a
  failed deletion, as in the code; the next operation reloads it.
- StoreMutations: profiles.json and settings.json. Two goroutines of one instance are
  serialised by its mutex and count as one instance.
- AgentActivity: `updatedAt` and expiry of order records, acknowledgement, removal of threads
  and projects, the notifications of observers, and whether an update started new work. The
  statements about runs are about reports that carry a token and a start time; tokenless
  updates are the subject of TokenlessNeverSupersedes.
- DisplayHistory: decoding of the entries and encoding of the cards; a message entry is well
  formed or not. Cards stand for the entry they are made from.
- PtyOutput: the goroutine that reads the PTY, and the first-output callback.
- CodexQueue: images, model options and the title hook. A transport failure has unknown
  delivery in the code; the model counts a message as started only when its reply says so.
- BranchNames: Unicode lower-casing and the set of white-space characters are parameters. A
  character is one `char`; lengths in the code are bytes for slugs, which are ASCII, and
  runes for prefixes.
- Orderings: path resolution, name limits and generated ids of a new project.
- ProcessNames: everything in the creation of a process window but its name.
- Settings, themes, environment scripts, the browser user interface, Pi extensions and
  plugins would add only single-function facts.
