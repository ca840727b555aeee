# Verified model of the agent harness

The harness runs agent turns on one machine: it keeps conversations, hands them to engines, lends them
desktops, schedules routines, queues handoffs and streams everything to its clients. Its difficult logic
lives in small protocols whose steps are the synchronous stretches between two `await`s. This project
models those protocols and proves what every interleaving of their steps keeps.

Each protocol has the same shape: a value type for what the program holds, one function per synchronous
stretch, a `Step` type that names the stretches with what the outside world answers in them (the clock, a
write that fails, a verdict, a container that did or did not act), and lemmas over every run of steps.
Where the program updates objects or module-level maps in place, a class with those fields has one method
per operation, and the method's `ensures` ties the new state to the function of that step. Loops of the
program are loops here, proved against the same functions.

| file | what it models |
|---|---|
| `NativeSession.dfy`, `SessionSteps.dfy`, `SessionGuards.dfy`, `SessionOrder.dfy`, `SessionRuns.dfy` | when an engine's own session may be resumed after switches, edits and rewinds: the state and its record of events, what every step keeps, what the record asks of a step, an order of steps that needs no record, whole runs |
| `LocalVmLease.dfy`, `LocalVmFences.dfy`, `LocalVmRuns.dfy` | who may use, create, stop or remove a Local VM desktop |
| `EventStream.dfy` | the resumable event stream with its bounded replay buffer (section 9.2 of the WHATWG HTML standard names the cursor header) |
| `RepeatDetector.dfy` | bounded counting of repeated calls |
| `Calendar.dfy`, `Routines.dfy` | daily schedules, run receipts, and the asynchronous tick |
| `Delegations.dfy`, `PeerApproval.dfy`, `SteerQueue.dfy` | handoff queue, approval gate, queued messages |
| `PackageKeys.dfy`, `PackageExport.dfy` | package export against the checks of the package reader |
| `RoomDeadline.dfy`, `RoomTurns.dfy` | the pausable turn deadline and the room engine |
| `LineGate.dfy` | the line splitter and the who-is-driving gate |
| `DecisionLog.dfy` | the rotating approval log |
| `Paging.dfy` | transcript pages and windows |
| `Wrappers.dfy`, `Collections.dfy` | `Option` and `Result`; shared facts about sequences and sets |

Properties that the code does not have in full generality are stated with the exact condition, next to a
lemma that shows what goes wrong without it:

- The model keeps a record the harness does not have: the sessions that a line sent on the branch did not
  reach, and those that were given a line off it. In every run, turns of one bot that overlap and branch
  changes under a turn included, a session follows its branch exactly when the record trusts it
  (`SessionRuns.EveryTurnFollowsExactly`), and the turns in flight follow theirs all the time exactly when
  every step is `SessionGuards.Harmless` (`SessionRuns.RunSafeExactly`). What the harness goes by at a
  turn's beginning agrees with the record exactly when it is `SessionGuards.Careful`
  (`SessionGuards.CarefulExactlyWhenSound`). Without the record, an order of the steps is enough: the turns of
  a task follow one another, the start and the marks of a turn come before the next one, the branch changes
  between turns, and a rewound turn clears the flag only when no other task's branch changed
  (`SessionOrder.InOrder`). In every run in that order, with answers, edits and switches anywhere, all turns
  in flight follow their branch (`SessionRuns.EveryTurnTalksToItsBranch`), and the engine that took the last
  turn of a task was given every line sent (`SessionRuns.OwnerMayResume`). The code does not enforce the order:
  - when the window of forty lines shows no user line, an engine is resumed whoever took the last turn; a
    turn of forty lines of another engine is enough (`SessionRuns.LongAnswerHidesUser`), and the resume is
    right exactly when the record trusts the session (`SessionRuns.WindowWithoutUser`);
  - the `rewound` mark is kept per bot, so a rewound turn of one task spends it for every other
    (`SessionRuns.DispatchSpendsEveryRewind`, `SessionRuns.RewindSpentElsewhere`), and a task that is not
    the active one never sees it (`SessionRuns.OwnerResumes`). Switching tasks does no harm by itself;
  - the branch route asks whether the bot is busy, waits for its body, and does not ask again: the branch
    can change under a turn, which then stops following it, and whose dispatch clears the newer flag
    (`SessionRuns.BranchChangesUnderATurn`). The edit route asks after it waited;
  - a failed dispatch makes the bot idle even while a newer turn of it runs
    (`SessionRuns.FailureFreesTheBot`);
  - a turn can complete before its dispatch returns; when the branch changes in between, the late marks
    clear the newer flag (`SessionRuns.LateMarkSpendsNewerRewind`).

  A comment in `server/index.ts` says that a rewind wipes all cursors; the call there clears the bot's
  legacy mirror only, and the model follows the code.
- `RoomTurnDeadline` counts work only as long as `start` is not called on a running clock
  (`RoomDeadline.DeadlineCountsWorkOnly`); there it forgets a live timer
  (`RoomDeadline.StartOnAnArmedClockFiresEarly`). It fires at most once in any case.
- A client can write over the answer of any card, so an open approval card has its entry only until a
  client does (`PeerApproval.EveryOpenCardHasItsResolver`, `PeerApproval.PatchReopens`).
- A drain of queued messages starts a bot at most once when starting marks it busy at once; without that
  mark it starts one twice exactly when two threads of one idle bot wait
  (`SteerQueue.UnmarkedStartsTwice`).
- Playbooks are compared with their triggers joined, so two different splits of the same text count as
  equal (`PackageExport.JoinedTriggersHideTheirSplit`).
- The approval log is bounded by the cap and one row more than the renames that failed since the last good
  one (`DecisionLog.LogStaysBounded`), so not at all when they keep failing
  (`DecisionLog.FailingRenamesUnboundTheLog`), and a read limit of 0 reads everything (`DecisionLog.LimitHoldsExactlyWhenPositive`).
- A page of size zero announces more for ever (`Paging.ZeroPageIsStuck`).

What comes from outside is a parameter: time, fresh ids (numbers drawn in order), the outcome of writes,
renames, appends and container actions, verdicts of the user, and the slug of a name. Methods of a single
assignment carry no row below.

## Model

| member | source | states |
|---|---|---|
| SessionRuns.EveryTurnFollowsExactly | server/index.ts:1415-1905 | in every run, whatever overlaps, the session a turn talks to or would be sent to knows every delivered line of its branch and nothing off it exactly when no line was sent past it and none off the branch was given to it |
| SessionRuns.RunSafeExactly | server/index.ts:1415-1905 | along a run every turn in flight follows its branch all the time exactly when each turn begins soundly and no step changes the branch under a turn in flight, tells it lines of another branch, sends a line past it or points it to a session that does not follow |
| SessionRuns.EveryTurnTalksToItsBranch | server/index.ts:1499-1535 | over every run whose steps keep the order, with answers, edits, notes and switches of engine, task and branch anywhere, each turn in flight talks to a session that knows every delivered line of its branch and nothing off it |
| SessionRuns.FollowsExactlyWhenSound | server/turn-context.ts:29-67 | a turn that begins goes to a session that follows its branch exactly when it resumes one the record trusts, opens one with the last lines, or opens one where nothing was delivered |
| SessionGuards.StepSafeExactly | server/index.ts:4598-4611 | a step, a branch change under a turn included, leaves every turn in flight with a session that follows its branch exactly when it is harmless |
| SessionGuards.CarefulExactlyWhenSound | server/turn-context.ts:29-54 | in a state the harness keeps in order, its decision at a turn's beginning passes that test exactly under the listed conditions |
| SessionRuns.OrderedRunIsCareful | server/index.ts:1415-1905 | along every such run each step meets what the record asks of it and is harmless |
| SessionRuns.OwnerMayResume | server/index.ts:1415-1905 | along every such run, between turns of a task whose branch did not change, the session of the engine that took the last turn follows the branch |
| SessionRuns.ResumedSessionFollowsBranch | server/turn-context.ts:47-54 | after any run, a session a turn is about to resume holds every delivered line of its branch and nothing off it, before and after the turn begins, exactly when the record trusts it |
| SessionRuns.WindowWithoutUser | server/turn-context.ts:29-36 | when the window shows no user line the turn's session follows the branch exactly when the record trusts the one on record, or without a cursor when nothing on the branch was delivered |
| SessionRuns.LongAnswerHidesUser | server/index.ts:1504-1506 | after a turn of forty or more text lines of another engine, an engine that comes back is resumed and does not follow the branch |
| SessionRuns.OwnerResumes | server/index.ts:1522-1535 | the engine that took the last turn of a task resumes its session there unless the task is the active one and the mark is up, although the session does not follow the branch |
| SessionRuns.DispatchSpendsEveryRewind | server/index.ts:1874-1878 | after the dispatch of a rewound turn every other task whose branch changed resumes its abandoned session |
| SessionRuns.RewindSpentElsewhere | server/index.ts:1522 | after a rewind a turn of another task of the same bot clears the mark, and the rewound task then resumes the abandoned branch |
| SessionRuns.RewoundTurn | server/index.ts:1874-1878 | without the other task in between, the next turn of a rewound task opens a new session that follows the branch, puts it on record, clears the mark and leaves other tasks alone |
| SessionRuns.BranchChangesUnderATurn | server/index.ts:4599-4611 | when the branch changes under a sent turn that knows a line off the new branch, the turn does not follow it, and if it is rewound its dispatch clears the newer flag and its engine resumes the abandoned session |
| SessionRuns.FailureFreesTheBot | server/index.ts:1888-1905 | a failed dispatch leaves another turn of the bot in flight and lets turns begin and branch requests pass |
| SessionRuns.AbandonedStaysAbandoned | server/index.ts:1830 | a session that does not follow the branch still does not once it was given the turn's lines |
| SessionRuns.LateMarkSpendsNewerRewind | server/index.ts:1874-1882 | when a rewound turn completes before its dispatch returns and the branch changes in between, the marks clear the newer flag and the next turn resumes the abandoned session |
| NativeSession.HistoryIsPrior | server/index.ts:1499-1511 | the transcript of a turn is the text of its branch before its own new lines |
| SessionSteps.OpenedCoherent | server/turn-context.ts:47-67 | a session opened with a replay of the surviving path, or where nothing was delivered, follows that path |
| SessionSteps.FollowsExactly | server/index.ts:1499-1535 | a session of a task in order follows the branch, full window included, exactly when the record trusts it |
| SessionSteps.OpenedLacks | server/turn-context.ts:47-67 | a session opened with the last lines lacks no line, one opened without lacks exactly those said before |
| SessionGuards.ResumesExactly | server/turn-context.ts:29-54 | a turn goes to the session on record exactly when it is not rewound and its engine owns the task or the window shows no user line |
| SessionSteps.BeginOk | server/index.ts:1499-1551 | beginning a turn, sound or not, keeps the record true of every session and every turn |
| SessionSteps.SentOk | server/index.ts:1818-1833 | reading the cursor and giving its session the turn's lines, which may be of another branch by then, keeps the record true |
| SessionSteps.CountedOk | server/index.ts:1874-1882 | when lines of a turn count as sent, exactly the sessions they did not reach have missed one |
| SessionSteps.TurnedOk | server/index.ts:4598-4611 | a change of the branch keeps the record true, with turns in flight or without |
| SessionSteps.StepKeeps | server/index.ts:1415-1905 | every synchronous stretch keeps the record true of every session and every turn, without condition |
| SessionOrder.StepKeepsOrder | server/index.ts:1415-1905 | every step in order keeps it: only the last turn of a task is in flight and goes to a session the record trusts, and between turns the owner may resume unless the branch changed |
| SessionOrder.BeginIsSound | server/turn-context.ts:29-67 | a turn that begins in order passes the record's test |
| SessionOrder.OrderedStepIsHarmless | server/index.ts:1415-1905 | a step in order disturbs no turn in flight |
| LocalVmLease.LocalVmLease.Current | server/local-vm-lease.ts:20-23 | the record is dropped exactly when it expired or its bot is idle |
| LocalVmLease.LocalVmLease.Claim | server/local-vm-lease.ts:25-35 | a claim succeeds exactly when no other thread holds the desktop, and then holds it for the full term |
| LocalVmLease.LocalVmLease.Touch | server/local-vm-lease.ts:37-43 | only the owner renews, and an expired record is dropped |
| LocalVmLease.OwnerUndisturbed | server/local-vm-lease.ts:20-47 | an owner whose bot stays busy and who speaks in time keeps the lease whatever other threads call |
| LocalVmLease.LocalVmLeasePool.ForTarget | server/local-vm-lease.ts:63-70 | one lease per target, the same one every time |
| LocalVmLease.LocalVmIdleTimer.Expire | server/local-vm-idle.ts:31-44 | an expiry defers by a full window while busy, and otherwise suspends |
| LocalVmRuns.NoDisruptionUnderALease | server/index.ts:4753-4776 | in every interleaving no create, stop, remove or idle removal is in flight on a desktop with a valid lease, and no two requests work on one desktop |
| LocalVmRuns.TurnGetsAQuietDesktop | server/index.ts:1623-1634 | a turn that is let in finds no request, no image pull, no mode change and no other owner, and owns the lease afterwards |
| LocalVmRuns.StaleReleaseIsHarmless | server/index.ts:818-824 | a late release by a thread that lost the desktop takes nothing from its new owner |
| LocalVmRuns.CreationRespectsLimit | server/index.ts:4796-4824 | only a per-bot creation adds a desktop, and never above the limit that request read |
| LocalVmRuns.FencesEndWithTheirRequests | server/index.ts:4834-4837 | no fence outlives its request, so with nothing in flight only a lease or a mode change turns a turn away |
| LocalVmFences.FencesKept | server/index.ts:4788-4838 | every step keeps the fences around the requests in flight |
| LocalVmFences.OwnersKept | server/index.ts:1631-1634 | leases, thread targets and active threads keep agreeing |
| LocalVmFences.CapacityKept | server/index.ts:4804-4824 | what a creation in flight knows about the number of desktops stays true |
| EventStream.EventStream.Broadcast | server/index.ts:517-533 | a broadcast appends the next numbered frame and keeps the buffer the last 500 of the history |
| EventStream.EventStream.Connect | server/index.ts:3294-3321 | `resumed` exactly when nothing missed left the buffer, and then exactly the missed non-screen frames are written |
| EventStream.ResumableExactly | server/index.ts:3302-3305 | the arithmetic on the buffer's first number holds exactly when every missed frame is still buffered |
| EventStream.ReplayIsTheGap | server/index.ts:3317-3321 | what the buffer replays is the gap of the uninterrupted stream |
| EventStream.Missed | server/index.ts:3317-3321 | the write loop writes every buffered frame after the cursor, in order |
| EventStream.ReconnectsAreSeamless | server/index.ts:3294-3331 | for any pattern of disconnects what a client received since it hydrated is the stream's non-screen frames, without gap or duplicate |
| EventStream.ConnectedClientsCatchUp | server/index.ts:3294-3331 | a connected client that read its connection holds everything broadcast |
| RepeatDetector.TrackedExactly | server/repeat-detector.ts:31-43 | a key is tracked exactly when fewer than the bound of other keys came since, and its count is its records since its latest insertion |
| RepeatDetector.NeverOvercounts | server/repeat-detector.ts:31-43 | a count never exceeds the true number of records |
| RepeatDetector.ExactWhileInSight | server/repeat-detector.ts:34-41 | a count is exact while every gap stays under the bound |
| RepeatDetector.TouchedRepresents | server/repeat-detector.ts:34-41 | one record keeps the map the recency-ordered image of the history |
| RepeatDetector.Bump | server/repeat-detector.ts:34-41 | the delete, evict and reinsert of one record compute that image and the count |
| RepeatDetector.RepeatDetector.Record | server/repeat-detector.ts:31-43 | the count returned is the run length, flagged exactly on a threshold |
| Calendar.NextOccurrence | server/routines.ts:137-148 | the offset loop computes the first qualifying instant of its nine days |
| Calendar.NextIsFirst | server/routines.ts:137-148 | a daily schedule always has a next occurrence, and it is the least matching instant strictly after the argument |
| Calendar.AtShowsTime | server/routines.ts:143-144 | setting hours and minutes on a day gives the one instant of that day at which the local clock shows them |
| Calendar.SomeDayMatches | server/routines.ts:141-146 | some day within a week after any day is one of a non-empty weekday set |
| Routines.EachRunStartsAtMostOnce | server/routines.ts:453-495 | over any interleaving of ticks, cancellations, webhooks, events, failed writes and restarts no run is handed to `startTurn` twice |
| Routines.HandoverIsWritten | server/routines.ts:453-489 | a run is handed over only from the queue, with a prompt, to a ready bot, and after it was written as running on its task; the file lists it exactly when the list still does |
| Routines.WrittenEndIsFinal | server/routines.ts:179-208 | an end that was written to disk is final through every later step, crash and restart, as long as the run is listed |
| Routines.EndedNeverStarts | server/routines.ts:389-399 | a run whose end is on disk is never handed over later, whatever crashes and restarts come in between |
| Routines.EndedHereNeverStarts | server/routines.ts:453-495 | a run that ended in memory is never handed over later in the same process, written or not |
| Routines.EditSchedulesAhead | server/routines.ts:548-551 | an edit never schedules into the past: a single time that is over becomes now, a daily schedule starts at its first time after now |
| Routines.EndIsAbsorbing | server/routines.ts:497-546 | within a process an ended run keeps its status and finishing time |
| Routines.FinishedExactlyWhenEnded | server/routines.ts:539-543 | a run has a finishing time exactly when it ended, in memory and on disk |
| Routines.RestartLeavesNoneActive | server/routines.ts:195-208 | a restart fails what was active on disk and leaves queued and ended runs as they were |
| Routines.ReceiptsFollowTheCalendar | server/routines.ts:430-450 | between two edits scheduled receipts have strictly increasing times and none is made before its time |
| Routines.PassCatchesUp | server/routines.ts:430-451 | a pass makes one receipt per due routine, queued when at most twelve hours late and missed otherwise, and leaves nothing due |
| Routines.SkipsToTheFirstAfterNow | server/routines.ts:445-446 | any number of skipped occurrences is collapsed: the next time is the first after now |
| Routines.RunKeeps | server/routines.ts:170-587 | the manager's invariants hold over whole runs |
| Routines.RoutineManager.constructor | server/routines.ts:179-209 | the recovery loop fails exactly the active runs of the file and writes only when there were any |
| Routines.RoutineManager.CancelWhere | server/routines.ts:272-280 | the loop ends exactly the listed runs in scope as cancelled |
| Routines.RoutineManager.UpdateRoutine | server/routines.ts:252-281 | an edit recomputes the next time, and pausing cancels the routine's queued runs |
| Routines.RoutineManager.StartTick | server/routines.ts:424-453 | the pass loop, the write and the snapshot, newest run first |
| Routines.RoutineManager.HandleRuntimeEvent | server/routines.ts:497-530 | the first active run of the thread follows the event, other events leave everything alone |
| Routines.RoutineManager.VisitNext | server/routines.ts:453-489 | one turn of the tick's loop up to the call of `startTurn` |
| Delegations.HandoffsBeginInOrderOneByOne | server/delegations.ts:171-191 | in one process the handoffs of a thread begin in the order they were accepted, each after the one before was acknowledged |
| Delegations.HandoffsRunOnce | server/delegations.ts:229-301 | no handoff reaches `runTarget` twice in one process |
| Delegations.DispatchedExactlyWhenCleared | server/delegations.ts:239-301 | a handoff runs exactly when its target is there and idle, a required approval was given and still stands, and the exchange could be mirrored |
| Delegations.CrashLosesNothing | server/delegations.ts:51-87 | with successful writes a crash leaves exactly the accepted items that were neither settled nor dropped, in order |
| Delegations.FollowUpTakesTheRest | server/delegations.ts:192-200 | when a drain ends, what was queued meanwhile is the snapshot of a new drain |
| Delegations.QueueStaysSmall | server/delegations.ts:110-132 | never more than four queued handoffs per thread |
| Delegations.DelegationDesk.QueueDelegation | server/delegations.ts:116-142 | the four refusals in their order, else the item is last in its thread's queue and written |
| Delegations.DelegationDesk.DrainDelegations | server/delegations.ts:150-172 | a drain takes the queue as its snapshot unless one runs already; a thread without bot is dropped |
| PeerApproval.EachPromiseResolvesOnce | server/peer-approval.ts:102-183 | each promise resolves at most once among answer, timeout and cancellation, and has its entry exactly until then |
| PeerApproval.EveryOpenCardHasItsResolver | server/peer-approval.ts:188-205 | after the boot sweep every open peer card of a bot's thread, and every open one asked since, has the live entry that settles it, and a settled one shows its promise's verdict, as long as no client wrote over the card |
| PeerApproval.PatchReopens | server/index.ts:4511-4526 | a client that clears the answer of a settled card leaves it open for a request without an entry |
| PeerApproval.AnswerReachesPromiseAndCard | server/peer-approval.ts:116-158 | the promise resolves to the user's answer, or to a denial on timeout, a card no client wrote over shows the same, and a request that is not pending changes nothing |
| PeerApproval.CancelTakesExactlyItsScope | server/peer-approval.ts:162-183 | cancelling resolves the entries of the bot or thread and touches no other |
| PeerApproval.EndValid | server/peer-approval.ts:50-58 | taking an entry out settles its own card only |
| PeerApproval.ApprovalDesk.CancelPeerApprovals | server/peer-approval.ts:162-183 | the loop over the map's entries denies those in scope |
| PeerApproval.ApprovalDesk.DismissStalePeerCards | server/peer-approval.ts:188-205 | exactly the open peer cards without an entry are dismissed, and they are counted |
| SteerQueue.EverySendIsAppendedOnceInOrder | server/steer-queue.ts:61-107 | while a thread's bot exists, what was appended and what waits are what was sent, once each and in order |
| SteerQueue.EveryLineHasItsRun | server/steer-queue.ts:81-106 | every appended line belongs to exactly one run, whose prompt is the joined prompts and whose exclude list is exactly its lines |
| SteerQueue.NoBotStartsTwice | server/steer-queue.ts:72-80 | a drain starts only idle bots and each at most once, when starting marks them busy |
| SteerQueue.UnmarkedStartsTwice | server/steer-queue.ts:72-80 | without that mark some bot starts twice exactly when two threads of one idle bot wait |
| SteerQueue.OnlyBusyBotsWait | server/steer-queue.ts:72-80 | after a drain only threads of busy bots still wait |
| SteerQueue.SteerDesk.DrainSteeredMessages | server/steer-queue.ts:61-107 | the loop over the map computes the drain of every entry |
| PackageKeys.PortableKey | server/package-export.ts:5-17 | the suffix loop ends and returns the first candidate that is not used |
| PackageKeys.SomeCandidateIsFree | server/package-export.ts:14 | the used keys hold at most as many candidates as they have members |
| PackageKeys.DecimalInjective | server/package-export.ts:14 | different suffixes give different keys |
| PackageExport.ExportFitsExactlyWhenSane | server/package-export.ts:27-147 | an export meets every uniqueness and reference check exactly when bot ids are distinct, no exported room lists a visible bot twice and visible default responders are members |
| PackageExport.CreateBotPackageExport | server/package-export.ts:27-147 | the export succeeds exactly in that case with a visible bot, and then fits the reader |
| PackageExport.PlaybooksSurviveExport | server/package-export.ts:47-67 | each agent's i-th key names an entry that says what the bot's i-th playbook says |
| PackageExport.AssignPlaybook | server/package-export.ts:53-63 | an equal entry under the same key is reused, anything else gets a fresh key |
| PackageExport.JoinedTriggersHideTheirSplit | server/package-export.ts:19-22 | two triggers and their one-line join count as equal |
| PackageExport.AssignKeys | server/package-export.ts:37-41 | different bot ids get different keys |
| PackageExport.ExportRooms | server/package-export.ts:76-94 | rooms follow the groups in order, with their visible members, and hidden default responders become mentions |
| PackageExport.ExportRoutines | server/package-export.ts:96-114 | exactly the routines of visible bots are exported, in order and under fresh keys |
| PackageExport.ParsePackage | server/bot-package.ts:167-199 | the checks report the first problem in their order |
| PackageExport.ReadExactlyWhenFit | server/bot-package.ts:167-199 | no problem is reported exactly when all keys are unique and all references known |
| RoomDeadline.DeadlineCountsWorkOnly | server/room-turn-timeout.ts:20-92 | for any order of opens, clamped resolves, starts, timer and stop without a start on a running clock, the remaining budget is the ceiling less the time nobody was asked, no timer is forgotten, and it fires at most once and only when the work reached the ceiling |
| RoomDeadline.NeverFiresAfterTheEnd | server/room-turn-timeout.ts:56-62 | once stopped or fired it never fires again, in any order of calls |
| RoomDeadline.FiresAtMostOnce | server/room-turn-timeout.ts:86-91 | in any order of calls, with any number of forgotten timers, it fires at most once |
| RoomDeadline.RunAgrees | server/room-turn-timeout.ts:43-92 | over such runs the deadline agrees with a reference that only looks at events and time |
| RoomDeadline.StartOnAnArmedClockFiresEarly | server/room-turn-timeout.ts:37-39 | the other half: a start on a running clock leads to firing under an open card before the work is done |
| RoomDeadline.CardBeforeStartArmsTheClock | server/room-turn-timeout.ts:43-53 | a card opened and closed before the start makes the clock run, so that the start forgets a timer |
| RoomDeadline.ArmedTimerIsDueWithTheBudget | server/room-turn-timeout.ts:80-84 | the armed timer is due exactly when the work has reached the ceiling, and then fires |
| RoomDeadline.RoomTurnDeadline.SetWaitingOnHuman | server/room-turn-timeout.ts:43-53 | opens and clamped resolves hold and re-arm the clock |
| RoomTurns.EachMemberAtMostOnce | server/index.ts:2291-2309 | for one message no member is asked twice, at most as many as members are asked, none while a turn owns the room and none after a stalled or timed-out turn |
| RoomTurns.EveryResponderIsAsked | server/index.ts:2303-2306 | unless somebody stopped the message every responder was asked |
| RoomTurns.MentionsReached | server/index.ts:2226-2235 | every member mentioned by a first-hop reply has spoken when that turn lets the message go on |
| RoomTurns.HangingTurnBlocksTheNextMessage | server/index.ts:2291-2302 | after a stalled or timed-out turn the next message asks nobody |
| RoomTurns.RunMemberValid | server/index.ts:2025-2237 | one member turn with its chained mentions keeps the room's invariants |
| RoomTurns.RoomEngine.RunGroupMemberTurn | server/index.ts:2025-2237 | the recursive turn, ending on hops and on members that have not spoken |
| RoomTurns.RoomEngine.StartGroupTurn | server/index.ts:2291-2309 | the loop over responders, refused while the room is owned |
| LineGate.LineSplitter.Push | server/mcp-bridge.ts:148-156 | lines and left-over text depend only on the text received, not on its chunks |
| LineGate.JoinGivesTheTextBack | server/mcp-bridge.ts:141-163 | joining the lines with newlines gives the text back, less one final newline |
| LineGate.LinesSpellTheText | server/mcp-bridge.ts:151-155 | terminated lines and the rest spell the text |
| LineGate.LinesHoldNoNewline | server/mcp-bridge.ts:151-155 | no line holds a newline |
| LineGate.ChunkingDoesNotMatter | server/mcp-bridge.ts:148-156 | two ways of cutting a text into chunks give the same lines and the same left-over text |
| LineGate.SplitResumes | server/mcp-bridge.ts:148-156 | splitting can stop and go on at any place |
| LineGate.EveryLineIsDecidedOnceInOrder | server/mcp-bridge.ts:171-206 | for any answers each line is forwarded or refused exactly once, in order, and only a held tool call is refused |
| LineGate.BridgeKeepsTheProtocolInOrder | server/mcp-bridge.ts:141-206 | splitter and gate together lose, reorder and invent nothing |
| DecisionLog.NewestRowsAreKept | server/decision-log.ts:63-76 | both files are a contiguous end of what was written, and a row goes only when `maxBytes` of newer rows are kept |
| DecisionLog.LogStaysBounded | server/decision-log.ts:69-70 | the live file stays under the cap and one row more than the renames that failed since the last good one, both files under twice that for the longest such streak, which is twice the cap plus one row while renames work |
| DecisionLog.FailingRenamesUnboundTheLog | server/decision-log.ts:69-73 | when renames fail the live file grows without bound |
| DecisionLog.WritesFollowSubmissions | server/decision-log.ts:81-98 | rows reach the disk in the order they were submitted |
| DecisionLog.ReadIsTheNewest | server/decision-log.ts:120-141 | a positive limit reads the newest whole rows kept, oldest first |
| DecisionLog.LimitHoldsExactlyWhenPositive | server/decision-log.ts:140 | a read obeys its limit exactly when it is positive or nothing is kept |
| DecisionLog.ReadDecisions | server/decision-log.ts:120-141 | the loops over both files collect the whole rows and cut them from the end |
| Paging.ReadWholeTranscript | server/index.ts:456-463 | paging back yields the transcript of the first request once and in order whatever arrives meanwhile |
| Paging.PageIgnoresNewMessages | server/index.ts:456-463 | a page before a held message does not change when messages are added |
| Paging.WindowHoldsItsTarget | server/index.ts:467-475 | the window has min(limit, length) messages and holds its target exactly when the limit is positive |
| Paging.ScrollbackAnswers | server/index.ts:3350-3373 | the route refuses exactly unusable numbers and combined cursors, and does not find exactly unknown ones |
| Paging.ZeroPageIsStuck | server/index.ts:456-463 | a page of size zero is empty and still announces more |

## Left out

- HTTP routing, request bodies, process spawning, sockets, provider and container clients: only their answers appear, as parameters of steps.
- Checkpoints, auto-approval, computer control, redaction, skill fetching and notifications: nothing there spans several steps.
- Message texts in `NativeSession`: messages are ids, so two lines with the same text stay distinct.
- Research messages in `NativeSession`: they are notes, which no native session is given.
- A turn in `NativeSession` whose dispatch failed: its lines never count as sent, and no event of it follows.
- Deleting a task in `NativeSession`: only the tasks that remain are compared with their sessions.
- SessionRuns.EveryTurnTalksToItsBranch: holds for the runs `SessionOrder.InOrder` describes, and not for all; the lemmas after it show what happens in others, and `SessionRuns.EveryTurnFollowsExactly` and `SessionRuns.RunSafeExactly` speak of all.
- What else makes a bot busy or idle in `NativeSession` (a room turn, a setup error, the watchdog's grace period) is one step with any outcome.
- Mode changes, container existence and workspace checks before a bot is deleted in `LocalVmFences`: a mode change is accepted or refused by the outside, and a bot is deleted at any time.
- Writing to a client that fails in `EventStream`: the client counts as disconnected.
- Daylight-saving changes in `Calendar`: the local clock has a constant distance from UTC.
- Text limits, output, cost and seen marks of a run in `Routines`, and requests that the input checks refuse: they change neither status nor order.
- Routines.ReceiptsFollowTheCalendar: one reading of the clock stands for the several readings of one synchronous stretch.
- Routines.WrittenEndIsFinal: a run that dropped off the list beyond the cap keeps its end in the model's table, which no file holds.
- Routines.HandoverIsWritten: a run that dropped off the list since it was queued is handed over without being on file, as in the code.
- Start order of queued routine runs, and the fate of active runs that drop off the list beyond the cap: the code promises neither.
- Delegations.HandoffsRunOnce: a handoff that is discarded while a drain holds it in its snapshot may still run, as in the code; after a restart an item that was running is run again.
- Chips and mirrored messages of `Delegations`, the expiry of fifteen minutes in `PeerApproval` (the timer may fire at any time), and the always-allow list (a flag of the ask).
- Restarts in `SteerQueue`: the queue is lost with the process, as the source says.
- Unicode normalisation and the shape of slugs in `PackageKeys` (the slug is any function), and the text and count limits of package fields.
- Requirements, appearance and texts of an exported package: they carry no key and no reference.
- Card-continuation turns and the parsing of mentions in `RoomTurns`: mentions are what the reply is said to name.
- UTF-8 decoding in `LineGate` (text is a sequence of characters), and JSON parsing (whether a line is a tool call is any predicate on lines).
- Partial appends in `DecisionLog`: a torn line is a row that does not read back whole.
- Edits and deletions of messages while a client pages in `Paging`: the transcript only grows at its end.
- The unpaginated shape of `messagePage`, which returns everything unchanged.
