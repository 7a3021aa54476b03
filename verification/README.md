# rudy: verified concurrency, durability and text-merge core

`rudy` is a coding-agent server. This project models the parts of it where being right is hard
and proves what they promise: the state shared around one live session, the protocols that race
over it, the queues between goroutines, the log that has to survive a crash, and the transforms
that must not change what they carry.

A protocol is a state machine. One step is one critical section, one channel send or close, or
one branch of a select; a run is any interleaving of steps; a theorem is about every state of
every run. The critical sections that the program runs in place are classes whose methods are
proved to do to their fields what the step's function does.

| files | what they model |
|---|---|
| `question`, `live_session`, `ask_*` | permission questions: sharing, hand-over, answers, settlement, attach replay |
| `lifecycle`, `lifecycle_proof`, `server_table` | a session's life: cold load, install, attach, detach, close |
| `shutdown` | the shutdown handshake |
| `runtime_approval`, `runtime_turns` | approvals and turns of an external runtime |
| `incoming`, `outbox` | the peer's incoming queue and a connection's outbox |
| `session_log`, `json_framing`, `torn_tail` | the JSONL log, what may be copied into one of its lines, and a line cut off by a crash |
| `config_text`, `config_sync`, `config_merge` | the config sync |
| `registry`, `registry_loads` | the plugin registry and the commit gate of a spawned plugin |
| `distance` | the edit distance behind "did you mean" |
| `basics` | shared helpers |

Where the code does not do what its documentation says, the model does what the code does, with a
run that shows it and the condition under which it happens:

- `Peer.Sync` is documented to return once the consumer has taken every earlier message, or when
  the context ends. It also succeeds, with messages unread, once the reader has stopped or the
  peer was closed: `Incoming.SyncAfterEndPromisesNothing`, exactly when in
  `Incoming.SyncAtOnceFailsIff` and `Incoming.WaitingSyncFailsIff`.
- A cold load meets its own process's lock when it registers for a session another request is
  still creating (`LifecycleTheorems.EarlyLoadFindsOwnLock`), or one that is still being closed
  although an earlier close, deregistering by id alone, took its entry off the table
  (`LifecycleTheorems.LostCloseFindsOwnLock`): exactly then by `LifecycleTheorems.MeetsItselfIff`.
- An answer is documented (internal/server/session_live.go:930-937) to take only its own question's
  entry off the table of questions that can be joined, and a key to hold one pending entry at a
  time. `AskSuccessor.SuccessorDropped` has two, and answering the older drops the newer one's
  entry: exactly when in `AskSuccessor.DropsOtherIff` and `AskSuccessor.EntryKeptIff`.
- The close of an external runtime's session can be claimed while a turn is active, because the
  mirrored state is read under a lock of its own: `LifecycleTheorems.ActiveClaim`, exactly when in
  `LifecycleTheorems.ClaimActiveIff`; never for a session whose turns run in the server.
- A truncated log is opened for append as it is (internal/session/session.go:84-117), so the next
  entry continues the torn line and the whole log is refused from then on, the entries before the
  crash included: `TornTail.ReopenedLosesAll`, exactly when any byte of the torn line was left in
  `TornTail.ReopenedReadsIffWhole`.
- A turn reported ended before the response that started it is made active again by that response
  when another turn ended after it (`RuntimeTurns.RevivedTurn`) or its end was dropped because
  another turn was running (`RuntimeTurns.RevivedOverRunning`): exactly when in
  `RuntimeTurns.RevivedIff`.
- A plugin that registers one name as a provider and as a runtime at the same time gets both:
  `RegistryLoads.OverlapCollides`, exactly when in `RegistryLoads.ProvidersApart` and
  `RegistryLoads.BothCommittedIff`.

A shutdown request after completion would take the server from stopped back to shutting down; no
run reaches it, because the process owner completes only after it has drained
(`Shutdown.NeverBack`).

The classes have more sections than the table lists: those whose whole effect is one assignment
are proved to be the step they stand for and have no row of their own.

## Model

| member | source | states |
|---|---|---|
| AskTheorems.RunInv | internal/server/session_live.go:841-1064 | the whole invariant of the question protocol holds in every state of every interleaving |
| AskTheorems.OneHolder | internal/server/session_live.go:841-954 | each unfinished question has exactly one holder, its queue is exactly the distinct parked calls behind it, waiting counts both until the holder departs, and every joinable question is unfinished |
| AskTheorems.NeverStranded | internal/server/session_live.go:841-954 | whichever calls cancel and when, a call in flight waits on a question an attached asker can answer, or a step that serves this very call can be taken, or it is queued behind the one holder of its question and one of the two holds of that holder |
| AskTheorems.AnswerProvenance | internal/server/session_live.go:780-894 | every answer a call returns was given after the call had asked: to the call's own question, of the same matcher and input, or as a session-scope allow for its matcher and the call is not dangerous |
| AskTheorems.DangerousOwnAnswer | internal/server/session_live.go:965-1019 | a dangerous call never takes an answer given for different input or before it asked, in any run with joins, promotions and settlements |
| AskTheorems.AcceptedOnce | internal/server/session_live.go:965-1064 | at most one answer, direct or settled, is accepted per raised question; no answer channel is sent on twice and no done, promote or abandon channel is closed twice |
| AskTheorems.NothingLeft | internal/server/session_live.go:354-395 | when no call is in flight nothing is pending, standing or joinable |
| AskTheorems.ToldOnce | internal/server/session_live.go:329-350 | an asker whose subscription overlapped a standing question is told of it exactly once: never twice, told exactly when nothing is owed or listed any more, and until then the step that tells it can be taken |
| AskTheorems.ToldOnlyOverlapping | internal/server/session_live.go:471-518 | nobody is told of a question their subscription never overlapped |
| AskSuccessor.EntryKeptIff | internal/server/session_live.go:841-984 | in every run a pending question can be joined exactly until the first answer accepted under its key since its raiser asked |
| AskSuccessor.DropsOtherIff | internal/server/session_live.go:921-984 | an answer takes another question's entry off the table if and only if an entry stands at the key although an answer under it was accepted after the question being answered was asked |
| AskSuccessor.SuccessorDropped | internal/server/session_live.go:930-984 | a run, for any input, in which one key holds two pending entries and answering the older question drops the newer one's entry |
| LiveSessions.LiveSession.Ask | internal/server/session_live.go:841-853 | joins the question at the key or files a new one; the caller raises exactly when it filed it |
| LiveSessions.RemoveChan | internal/server/session_live.go:946-954 | removes the first occurrence and says whether there was one |
| LiveSessions.LiveSession.DropOut | internal/server/session_live.go:862-868 | a parked call leaves the queue and the count, or learns it was popped already |
| LiveSessions.LiveSession.Leave | internal/server/session_live.go:901-919 | a departing holder passes the question to the head of the queue or retires it |
| LiveSessions.LiveSession.Askers | internal/server/session_live.go:248-256 | exactly the asker subscribers, in subscription order |
| LiveSessions.LiveSession.StandUp | internal/server/session_live.go:329-339 | recording the question and snapshotting the askers is one change, and none is recorded when nobody can answer |
| LiveSessions.LiveSession.CollectStanding | internal/server/session_live.go:378-383 | every standing question is taken, and each of their channels is returned once |
| LiveSessions.LiveSession.Attach | internal/server/session_live.go:471-500 | registering a connection and reading what it is owed is one change |
| LiveSessions.LiveSession.Detach | internal/server/server.go:2201-2208 | the connection's subscriptions go, the others keep their order |
| LiveSessions.LiveSession.SettleLocked | internal/server/session_live.go:997-1019 | exactly the pending, non-dangerous questions of the matcher are retired, each answered once, in whatever order the table yields them |
| LiveSessions.LiveSession.ResolveAnswer | internal/server/session_live.go:965-984 | claims the question and, for a session-scope allow, settles what it covers; without one nothing changes, and "already answered" is told from "never asked" |
| LiveSessions.SettleSpares | internal/server/session_live.go:986-1008 | after an answer exactly the dangerous questions and those of other matchers are left pending, and what is settled is answered, not standing and not joinable |
| LifecycleTheorems.RunInv | internal/server/server.go:1902-1993 | the whole invariant of loading, installing, attaching and closing holds in every state of every interleaving |
| LifecycleTheorems.LoadNeverMeetsItself | internal/server/server.go:1902-1993 | before Shutdown a cold load never finds the session's lock in its own process's hands, unless a load registered for the id while it was being created and the id has not settled since |
| LifecycleTheorems.OwnLockOnlyEarly | internal/server/server.go:1902-1945 | no other id was ever so met, and every such id has a load, a creation or a close under way |
| LifecycleTheorems.MeetsItselfIff | internal/server/server.go:1903-1945 | before Shutdown a load about to register for an id in none of the three tables meets its own process's lock on an immediate disk load if and only if the id is being created or a close of it still holds the lock |
| LifecycleTheorems.EarlyLoadFindsOwnLock | internal/server/server.go:1904-1927 | a run in which a load that began during creation meets the lock of the session by then live |
| LifecycleTheorems.LostCloseFindsOwnLock | internal/server/server.go:2260-2293 | a run in which one close takes a second close's entry off the table and a later load meets the lock the second one still holds |
| LifecycleTheorems.OneLoader | internal/server/server.go:1909-1933 | at most one load runs per id |
| LifecycleTheorems.LockHeldWhile | internal/server/server.go:2260-2293 | the lock is this process's exactly while the session is being created, loaded by its one load, installed and unclosed, or being closed; an installed unclosed session is the one in the table |
| LifecycleTheorems.ClosedUnreachable | internal/server/server.go:2128-2141 | before Shutdown a session marked closed has no subscriber and is not in the table, so no attach lands on it |
| LifecycleTheorems.ClaimActiveIff | internal/server/session_live.go:654-665 | at the claim of a close the session is unused and unclaimed, and its mirror is active if and only if it was told of a turn after the idle read that has not ended again |
| LifecycleTheorems.RunnerClosedIdle | internal/server/server.go:2308-2399 | a session whose turns run in this server is never active when its close is claimed, nor before Shutdown once it is closed |
| LifecycleTheorems.ActiveClaim | internal/server/runtime_session.go:640-650 | a run in which an external runtime's turn starts between the idle read and the claim, so that the close is claimed while the session is active |
| LifecycleTheorems.ClosedOnce | internal/server/session_live.go:633-674 | session_closed fires and Close runs at most once per session even when Shutdown races a detach, and no channel is closed twice |
| ServerTable.Server.LookUp | internal/server/server.go:1903-1925 | one round of the retry loop: the live session, a channel to wait for, or the single right to load |
| ServerTable.Server.AttachIfLive | internal/server/server.go:2128-2137 | lookup and subscription are one section |
| Shutdown.RunInv | internal/server/server.go:165-240 | the invariant of the handshake holds in every state of every interleaving |
| Shutdown.NeverBack | internal/server/server.go:331-400 | the server only moves from running to shutting down to stopped; a committed shutdown is never released; after the commit no loop or turn joins the wait group and no request begins dispatch |
| Shutdown.DrainedMeansEmpty | internal/server/server.go:395-421 | the wait group counts exactly the loops and turns inside, and none is left once the server is stopped |
| Shutdown.StoppedOnlyAcked | internal/server/server.go:206-240 | server.stopped goes at most once, to the one connection whose shutdown response reached the transport, after completion |
| Shutdown.HeldHears | internal/server/server.go:220-240 | a held control connection always gets its verdict once the owner is done |
| Shutdown.ShutdownGate.ClaimShutdown | internal/server/server.go:354-362 | claims exactly when neither claimed nor shutting down |
| RuntimeApproval.ValidateAnswer | internal/server/runtime_approval.go:247-272 | accepts exactly a reasoned deny of once scope granting nothing, or a reasoned allow of an offered scope granting only what a permissions question requested |
| RuntimeApproval.RunInv | internal/server/runtime_approval.go:26-133 | the invariant of the approval race holds in every state of every interleaving |
| RuntimeApproval.ClaimedOnce | internal/server/runtime_approval.go:274-294 | each approval is claimed by one party, for good; at most one decision is logged for it, its channel is sent on once and its abandon channel closed once |
| RuntimeApproval.ReturnedClaimed | internal/server/runtime_approval.go:62-132 | exactly the registered approvals are ever claimed, and each has been by the time its request returns |
| RuntimeApproval.LoggedByClaimant | internal/server/runtime_approval.go:295-313 | a logged decision is the claimant's, or the immediate denial of a question nobody could hear |
| RuntimeApproval.LoserHears | internal/server/runtime_approval.go:95-132 | a requester that lost the claim has the winner's answer, or the winner has yet to take the steps that send it |
| RuntimeApproval.AllowOnlyLogged | internal/server/runtime_approval.go:171-245 | an allow reaches the runtime only after the log took this approval's asker allow, of an offered scope and requested grants |
| RuntimeTurns.RuntimeSession.RuntimeEvent | internal/server/runtime_session.go:459-618 | each event changes exactly what the specification of its kind says, and a stale or foreign one changes nothing else |
| RuntimeTurns.RuntimeSession.StartResponse | internal/server/runtime_session.go:408-426 | the response makes the turn active exactly when it is not the last one ended |
| RuntimeTurns.RunInv | internal/server/runtime_session.go:322-450 | the invariant of calls and events holds in every state of every interleaving |
| RuntimeTurns.OneMutation | internal/server/runtime_session.go:71-134 | at most one call is in flight, the mark says so, and every call that ended cleared it exactly once |
| RuntimeTurns.EventsRise | internal/server/runtime_session.go:459-477 | numbered events take effect in strictly increasing order |
| RuntimeTurns.AmbiguousBlocks | internal/server/runtime_session.go:239-264 | an unknown outcome stays so and no turn, steer or fork begins until a refresh completes |
| RuntimeTurns.ResponseActivatesIff | internal/server/runtime_session.go:362-426 | in every run the response activates its turn if and only if that turn is not the last one ended by an event since the start began |
| RuntimeTurns.RevivedIff | internal/server/runtime_session.go:362-486 | in every run a turn whose end was reported, taken or dropped, is made active again by its response if and only if it is not the last one whose end took effect since the start began |
| RuntimeTurns.RevivedTurn | internal/server/runtime_session.go:408-426 | a run in which a turn that had ended is made active again because another ended after it |
| RuntimeTurns.RevivedOverRunning | internal/server/runtime_session.go:408-486 | a run in which a turn's start and end are dropped while another is active, and its response makes it active in place of the running one |
| RuntimeEntries.Merge | internal/server/runtime_session.go:136-156 | the snapshot in order with the newest live entry of each id winning, then the live entries it lacks, in order |
| RuntimeEntries.MergeMeans | internal/server/runtime_session.go:136-156 | merging shows exactly the ids of both sides, the newest live entry of every live id and every other snapshot entry, and keeps unique ids unique |
| RuntimeEntries.Publish | internal/server/runtime_session.go:654-666 | replaces the first entry of the same id in place or appends, keeping unique ids unique |
| Incoming.QueueConn.Push | internal/protocol/peer.go:146-156 | queues the message, or refuses it exactly when unread messages and barriers together have reached the cap, so its error may come with fewer unread messages than it names; they never exceed the cap |
| Incoming.QueueConn.PutBarrier | internal/protocol/peer.go:225-234 | queued exactly while the reader runs |
| Incoming.QueueConn.TakeNext | internal/protocol/peer.go:179-193 | closes the barriers at the head and takes the first message; none is passed over |
| Incoming.RunInv | internal/protocol/peer.go:97-245 | the invariant of reader, consumer and barriers holds in every state of every interleaving |
| Incoming.InOrder | internal/protocol/peer.go:146-193 | messages are returned in arrival order, none lost or repeated, and never more than the cap are unread |
| Incoming.BarrierExact | internal/protocol/peer.go:179-193 | a barrier is reached when exactly the messages queued before it were returned, and is closed once |
| Incoming.EndAfterAll | internal/protocol/peer.go:194-201 | the reader's end error is returned only after every message that ever arrived |
| Incoming.NoLostWakeup | internal/protocol/peer.go:158-209 | whenever the one consumer sleeps with something to see, a wakeup is there or on its way |
| Incoming.SyncMeans | internal/protocol/peer.go:225-245 | while the reader runs and the peer is open, success means every message that had arrived before the call was taken |
| Incoming.SyncAtOnceFailsIff | internal/protocol/peer.go:225-231 | a Sync succeeds at once with an earlier message unread if and only if the reader has stopped and a message is still queued |
| Incoming.WaitingSyncFailsIff | internal/protocol/peer.go:235-245 | a waiting Sync may succeed with an earlier message unread if and only if the reader has finished or the peer was closed, and one is unread |
| Incoming.SyncAfterEndPromisesNothing | internal/protocol/peer.go:228-231 | a run in which Sync succeeds with an earlier message unread |
| Outbox.Conn.Enqueue | internal/server/conn.go:65-92 | appends exactly while the pump runs, and otherwise answers with its error |
| Outbox.Conn.Take | internal/server/conn.go:149-157 | takes the head, if any |
| Outbox.Conn.StopPump | internal/server/conn.go:170-183 | stops the outbox and tells every queued waiter, in order |
| Outbox.RunInv | internal/server/conn.go:64-183 | the invariant of senders and pump holds in every state of every interleaving |
| Outbox.AcceptedPrefix | internal/server/conn.go:139-168 | what the transport took is a prefix of what was enqueued |
| Outbox.SuccessMeans | internal/server/conn.go:79-97 | success means the transport took this message and everything enqueued before it |
| Outbox.ToldExactlyOnce | internal/server/conn.go:158-183 | no waiter is told twice, none untold is out of the pump's sight, and all are told once it has finished |
| Outbox.StoppedHasError | internal/server/conn.go:82-86 | a stopped outbox always has an error to give |
| Outbox.NoLostWake | internal/server/conn.go:99-157 | the pump never sleeps on a message nobody is about to wake it for |
| SessionLog.Log.Append | internal/session/log.go:41-58 | one entry is one more line, or nothing is appended and the reason is told; nothing becomes durable |
| SessionLog.Log.Sync | internal/session/log.go:62-79 | after success every entry appended so far is durable |
| SessionLog.Log.Close | internal/session/log.go:82-95 | syncs and closes once |
| SessionLog.Log.CrashRead | internal/session/log.go:25-94 | of a file opened with whole lines or none: whatever byte prefix a crash leaves past the durable bytes reads as a prefix of the old entries and those appended, with all synced ones, and Truncated names the next line exactly when the bytes end inside a line |
| SessionLog.ReopenedReadsIff | internal/session/log.go:25-36 | for any decoder, a truncated log opened for append as it is reads again if and only if the torn line and the next one together decode; otherwise it is malformed at that line and no entry is read |
| TornTail.ReopenedReadsIffWhole | internal/session/log.go:25-150 | for every decoder that takes only JSON, a log that holds some of an entry's line and is appended to reads if and only if nothing of that line was left; otherwise it is malformed at that line, the entries before it included |
| TornTail.NeverJson | internal/session/entry_json.go:236-279 | any nonempty beginning of an entry's line followed by another entry's valid line is not one JSON text |
| TornTail.ReopenedLosesAll | internal/session/log.go:111-150 | for every plain mode change, a log of it and one byte of the next line reads as that entry and a truncated line, and as malformed once the next entry is appended |
| SessionLog.ReadLog | internal/session/log.go:111-150 | the loop computes the meaning of a file: blank lines skipped, an unfinished line dropped, a malformed one fatal |
| SessionLog.ParsePrefix | internal/session/log.go:111-150 | any byte prefix of lines followed by a torn tail reads as a prefix of the entries |
| JsonFraming.Compact | internal/session/entry_json.go:36-54 | the scan drops exactly the whitespace outside strings |
| JsonFraming.CompactMeans | internal/session/entry_json.go:36-54 | compacting any RFC 8259 text gives the same value with every literal and string as written, without a line break, and again the same |
| JsonFraming.AppendRawJSON | internal/session/entry_json.go:45-54 | copies text without a line break untouched, compacts valid text that has one, and refuses the rest |
| JsonFraming.AppendString | internal/session/entry_json.go:28-34 | a quoted string never breaks the line |
| JsonFraming.AppendBlocks | internal/session/entry_json.go:58-115 | writes exactly the text of every block, each field quoted and each tool input as copied, on one line, and fails exactly when a block has an unknown type or invalid input |
| JsonFraming.MarshalEntry | internal/session/entry_json.go:236-279 | an entry is written as exactly its text, the envelope, the scalars, the input and the content in this order, on one line, or refused exactly when its payload is missing, of another kind or invalid, or its input or a block cannot be written |
| ConfigText.StripComment | internal/config/sync.go:288-301 | the text up to the first hash outside quotes |
| ConfigText.Brackets | internal/config/sync.go:305-323 | opening less closing brackets outside quotes |
| ConfigText.SplitKeyLoop | internal/config/sync.go:152-170 | the segments of a dotted key, quoted ones whole |
| ConfigText.JoinSplit | internal/config/sync.go:152-170 | splitting a plain dotted name and joining it gives it back |
| ConfigSync.Entries | internal/config/sync.go:118-148 | every header and key with its line and full path |
| ConfigSync.KeysIn | internal/config/sync.go:97-105 | exactly the keys the file sets |
| ConfigSync.TableEnd | internal/config/sync.go:237-277 | the place after the table's last line, found exactly when it has one or holds the keys above every table |
| ConfigSync.EndIsInTable | internal/config/sync.go:233-277 | in a well-formed file that place is in the table and between values, for the other reader too |
| ConfigSync.ReadersAgree | internal/config/sync.go:118-148 | in every well-formed file the two readers agree on nesting, and on the table wherever its name is one the catalogue could mean |
| ConfigSync.ArrayHeaderOk | internal/config/sync.go:129-135 | an array-of-tables header is well formed and puts the keys below it under its name |
| ConfigSync.WrittenAdds | internal/config/sync.go:221-231 | what is written for missing keys is read back as exactly those keys |
| ConfigMerge.Insert | internal/config/sync.go:196-217 | keeps every line in order with the key it sets and gains exactly the missing keys |
| ConfigMerge.Merge | internal/config/sync.go:173-191 | adds exactly the documented keys the file lacks, in catalogue order, and otherwise changes nothing |
| ConfigMerge.MergeMeans | internal/config/sync.go:173-191 | afterwards the keys are the old ones and all documented ones, old lines are kept with their keys, and a second merge adds nothing |
| Registry.InstalledMeans | internal/plugin/registry.go:244-284 | committing fresh names keeps the order list exact and makes them the plugin's |
| Registry.Withdraw | internal/plugin/registry.go:447-457 | removes exactly the owner's entries from table and order in one pass |
| Registry.CommitMeans | internal/plugin/registry.go:244-299 | a commit installs exactly what was staged and gives nothing to anybody else |
| Registry.FailMeans | internal/plugin/registry.go:390-443 | failing leaves the plugin owning nothing |
| Registry.FailSpares | internal/plugin/registry.go:390-443 | and takes nothing from anybody else |
| Registry.PutMeans | internal/plugin/registry.go:310-332 | an item is stored or cleared and the order list stays exact |
| RegistryLoads.PluginRegistry.CommitStage | internal/plugin/registry.go:244-299 | the stage is moved into every table |
| RegistryLoads.PluginRegistry.FailPlugin | internal/plugin/registry.go:390-418 | everything of the plugin is withdrawn and it is marked failed |
| RegistryLoads.RunInv | internal/plugin/registry.go:110-136 | the invariant of loads, registrations and failures holds in every state of every interleaving |
| RegistryLoads.OrdersListKeys | internal/plugin/registry.go:244-363 | in every reachable state each order list names its table's keys, each once |
| RegistryLoads.ProvidersApart | internal/plugin/registry.go:667-738 | only a name that a plugin in its Init was registering as both at the same time is ever a provider's and a runtime's |
| RegistryLoads.BothCommittedIff | internal/plugin/registry.go:647-738 | in every reachable state, when a check passes while another claim of the same plugin is pending, staging both and committing makes the name both if and only if that claim is for the same name on the other side |
| RegistryLoads.OverlapCollides | internal/plugin/registry.go:647-701 | a run from the start in which one name is committed as both |
| RegistryLoads.DeadForGood | internal/plugin/spawned.go:390-452 | once a committed plugin has failed it owns nothing ever again and its row stays failed |
| Distance.Distance | internal/config/lint.go:162-180 | the two-row loop computes the recursive Levenshtein distance |
| Distance.LeastEdits | internal/config/lint.go:161-180 | which is the least number of single-character edits |
| Distance.Symmetric | internal/config/lint.go:161-180 | it is symmetric |
| Distance.Triangle | internal/config/lint.go:161-180 | it satisfies the triangle inequality |
| Distance.ZeroIffEqual | internal/config/lint.go:161-180 | it is zero exactly for equal strings |
| Distance.Nearest | internal/config/lint.go:141-158 | the key with its lower-cased last segment replaced by the first of the closest names, if that is within two edits and fewer than the word is long; otherwise nothing |

## Left out

- Child sessions: a child's questions are published through its parent in two separate sections; the exactly-once theorem is for root sessions, and runtime approvals' own attach replay is not modelled.
- LiveSessions.LiveSession.Attach: returns the channels of the standing questions, not the replayed entries, states and their sort order.
- LiveSessions.LiveSession.StandUp: the parent's askers of a child session are not consulted.
- LiveSessions.LiveSession.CollectStanding: the runtime approvals the same section marks abandoned are a step of their own race.
- The Gate and the turn runner: the dangerous verdict is a fixed function of tool and input, and the runner an environment that asks with distinct tool_use ids in flight and reports states.
- Liveness: that every unused session eventually closes is not claimed, since a close gives up on a busy lock; the theorems say that a step can be taken, not that it is.
- LifecycleTheorems.LoadNeverMeetsItself: stops at Shutdown, which empties the table without using `closing`; session ids are assumed fresh when drawn.
- ServerTable.Server.LookUp: the runtime thread binding is left out, so an install refused by it is the step that gives up.
- Shutdown.NeverBack: the owner completes only after the wait group drained, the order of internal/cli/serve.go; the time limits are steps that may happen at any moment.
- RuntimeApproval.RunInv: a question refused before registration because its turn or item is stale only records a denial and is not a step; the reasons of the requester's own denials are collapsed into one; a resolver's denials may interleave more freely than its loop does.
- RuntimeTurns.RuntimeSession.RuntimeEvent: usage, deltas and the notifications an event causes are left out; 64-bit wrap-around of revision and sequence is not modelled.
- Session recovery, forks and the store itself: `session.Session` is an exclusive lock and an append-only log.
- SessionLog.Log.CrashRead: encoding and decoding are parameters; each line written must decode to its entry. The full JSON round trip of entries is left out.
- TornTail.ReopenedReadsIffWhole: the decoder is any function that takes only JSON text, as `encoding/json` does; what else it demands of an entry is left to it.
- JsonFraming.Compact: the scanner's refusal of invalid text is the `valid` parameter of AppendRawJSON.
- JsonFraming.AppendString: strings are bytes, so replacing invalid UTF-8 and escaping U+2028 and U+2029 are not modelled.
- JsonFraming.MarshalEntry: identifiers, times and the encoder's own scalars are given as text on one line, and payload validation as its verdict.
- ConfigMerge.MergeMeans: for files without multi-line strings whose brackets balance and whose other lines set keys or are closed headers, and a catalogue of bare keys under their tables; reading and writing the file is left out.
- Distance.Distance: for ASCII, where a byte is a character.
- RegistryLoads.RunInv: loads are sequential and plugin names distinct; values, notices and change callbacks are left out.
- Everything else of the repository: tools, providers, prompts, TUI, CLI, MCP, skills, plugin installation, sockets and ssh.
