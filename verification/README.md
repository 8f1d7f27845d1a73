# om-tui: a verified model of its account supervisor and store cores

The project models the parts of om-tui that decide when a messaging account connects,
repairs, pairs, sends and stops, and proves what those decisions keep over every run.
`dafny verify dfyconfig.toml` checks all of it.

## How it is built

**The account supervisor** (`internal/bridge/supervisor.go`).

- `SupervisorLog` defines the effects one supervisor has on the world (generations started,
  runs produced and stopped, commits, probes, failures, repairs, replies, pairing attempts),
  the rule each effect obeys when it happens, and theorems about any two points of a log
  whose effects all obeyed their rules.
- `SupervisorModel` has one function per handler. Everything the loop reads from outside
  comes from a `World`: an arbitrary answer to every poll of the clock, the stop flag, the
  random source and the channels. Time does not run backwards, Stop is final, and from some
  poll on (the horizon, which may be any) the clock stands still and nothing new arrives;
  only the termination of the drain rests on that.
- `SupervisorSafety` states the invariant (log and fields tell the same story; slots, timer
  and gate are those of the state) and proves, handler by handler, that it is kept and where
  the handler leads. `SupervisorRun` adds commands, the Sync barrier, shutdown and the run
  loop with its environment; `SupervisorTheorems` holds the whole-run results.
- `Supervisor` is the loop as an object whose methods update its fields in the order of the
  source; each is proved to compute the function of the same name.
- `Fence` interleaves adapter callbacks with activate and deactivate at the level of single
  lock operations.

**The control wrappers** (`WhatsAppControl`, `SignalControl`, `Pacer`). Each mutex section is
one atomic step on the fields; callers, watchers, background waits and supervisors interleave
freely between sections, while Supervisor.Stop, the wait for watchers and the callback happen
outside the lock.

**The outbox carry** (`Carry`, `CarrySafety`), **the cookie rendezvous** (`CookieBridge`), and
**the store cores** (`SearchIndex`, `Scheduled`, `Timeline`, `Export`, `Thread`, `Reactions`).
Tables are sequences or maps, one transaction is one step.

## What turned out false, and when it holds

- A pair watcher that starts for a supervisor already stopped, and outlives its replacement,
  does not give its slot back. No other step, and over runs nothing else, causes that (`SlotStep`,
  `StuckNeedsRebuild`; `SlotCanStick` gives the run), and until a caller marks the supervisor as
  stopped again no pair watcher starts (`StuckStep`, `StuckUntilStopped`).
- An intent that can be sent but has no schedule is inserted into the fresh store and yet reported as not
  carried (`InsertedIsCarriedIffScheduled`, `UnscheduledStaysUncarryable`, `UnscheduledIsCarriedButReported`). The old store's
  schema excludes such rows, so that the program does not meet them; the carry alone does not
  exclude them. Resumability is proved for scheduled rows.
- The budget of five attempts does not hold of several schedulers (`TwoSchedulersOverrun`). It is
  overrun exactly by recording a fault of the last attempt from a stale due list: no other step
  leaves the budget (`StaleListOverrunsBudget`), every sixth claim has such a step behind it
  (`SixthClaimNeedsStaleList`), and each can be followed by one (`SixthClaimFollows`). That a
  message is sent at most once holds all the same.
- DeleteConversation leaves stale index rows whenever the conversation has messages
  (`DropIsExactIffEmpty`); they never show in a joined search, and the next restart removes them.
  A repair interrupted before its rebuild leaves a wrong index exactly when it filled in a body
  (`InterruptedRepairAgreesIff`), and the restart keeps it exactly if the row counts are equal
  besides (`RestartAfterInterruptedRepair`, `RestartCanKeepStaleBody`).
- Adding a reaction with a blank emoji reports a change and changes nothing (`ChangedIsRealIff`).
- With a negative `until`, which a date before 1970 gives, Range.Contains lets nothing through and
  the export loader reads the bound as open; the two agree for exactly the other ranges
  (`LoadedIsWindowIff`, `LoaderAgreesWithContains`).
- A Supervisor.Stop may leave one Run live, since shutdown does not look at a start result that is
  already in its channel: exactly when the start worker had answered with a Run before Stop
  (`StopLeavesRunIff`; `StopCanLeaveRun` is such a run). Exclusivity and stop-at-most-once hold
  all the same.

## Model

| member | source | states |
|---|---|---|
| SupervisorTheorems.EveryRunIsLawful | internal/bridge/supervisor.go:452-507 | every effect of every run, in every world and from either initial state, obeys its rule; this carries each of the log theorems to the loop itself |
| SupervisorTheorems.RunExclusivity | internal/bridge/supervisor.go:579-707 | over every run: starts are exclusive, generations increase, no Run is stopped twice |
| SupervisorTheorems.GateAndSilence | internal/bridge/supervisor.go:800-869 | over every run: no commit after the gate closed, no probe before LivenessTimeout of silence |
| SupervisorTheorems.RepairDiscipline | internal/bridge/supervisor.go:918-972 | over every run and whatever commands arrive: repair before reconnect, and the repair budget of a streak |
| SupervisorTheorems.PairingDiscipline | internal/bridge/supervisor.go:974-1123 | over every run: pairing is single flight, waits out a limit, and a closed attempt pairs nobody |
| SupervisorTheorems.RepliesExactlyOnce | internal/bridge/supervisor.go:473-480 | over every run: all accepted commands but the one deferred are answered exactly once; a deferred reply exists only in Connecting with a start outstanding; none is left after Stop |
| SupervisorTheorems.NoStuckState | internal/bridge/supervisor.go:452-507 | over every run: slots, timer and gate are those the state requires; every busy state has a timer or an outstanding worker, idle ones have neither; Online is watched no later than LivenessDeadline; after Stop nothing is left but what `Final` says |
| SupervisorTheorems.TransientAlwaysRetries | internal/bridge/supervisor.go:1157-1176 | from any number of transient failures, the own timeouts among them, with a jitter source that keeps its contract, the account goes to Backoff with now ≤ RetryAt < now + cap, where now is the reading after the draw and cap the exponential cap of as many transient failures as the log shows since the history was cleared |
| SupervisorTheorems.RoutedByHistory | internal/bridge/supervisor.go:1125-1214 | the log alone decides where a failure is routed: the circuit opens exactly on the MaxSameFingerprint-th failure in a row with one fingerprint, and the class names the state otherwise |
| SupervisorTheorems.ExpiredStartIsRepaired | internal/bridge/supervisor.go:681-684 | a first attempt that fails for expired credentials goes to repair, unless the circuit is full or nobody can repair, and its caller is told that class and fingerprint |
| SupervisorTheorems.DroppedStartErrorIsStop | internal/bridge/supervisor.go:971-971 | at the two call sites that drop the error of startGeneration (after a repair, after a wait) it is "stopped" exactly when Stop was called by then, and never "busy" |
| SupervisorTheorems.AtMostTwoDeadlines | internal/bridge/supervisor.go:1243-1281 | three deadlines fire in a row only if the third reads a later clock than the first |
| SupervisorRun.Drain | internal/bridge/supervisor.go:1286-1313 | Sync: terminates in every world, keeps the invariant, and returns with both queues empty and no deadline due at its last look |
| SupervisorTheorems.StopLeavesRunIff | internal/bridge/supervisor.go:1368-1406 | seen from any valid state before Stop: a Run is still live afterwards exactly if the start worker had answered with it and nobody had looked; then it is that Run and no other |
| SupervisorTheorems.StopCanLeaveRun | internal/bridge/supervisor.go:1368-1406 | such a run: a Start is admitted, Lifecycle.Start returns, its worker answers, and Stop comes before the loop takes the answer |
| Fence.NoCommitAfterDeactivate | internal/bridge/supervisor.go:1414-1505 | for every interleaving of callbacks: once deactivate(g) has returned, no commit of g is in progress or begun, then or ever after |
| Fence.CommitsAreCurrent | internal/bridge/supervisor.go:1414-1505 | a commit in progress belongs to the active generation, which no step can close or replace meanwhile; generations never fall |
| Fence.PassesIff | internal/bridge/supervisor.go:1476-1505 | a callback at the fence commits exactly if its generation is the active one, and waits only while the run loop holds the lock |
| Fence.CallTakesEffect | internal/bridge/supervisor.go:1420-1433 | once the readers are through, activate opens the fence for the newest generation alone, and deactivate closes it for its generation and no other |
| WhatsAppControl.AtMostOneSupervisor | cmd/whatsapp_supervisor.go:211-427 | under any interleaving at most one supervisor is un-joined, and before close the stopping flag is set exactly while one caller works towards clearing it |
| WhatsAppControl.BuildsOnlyAfterJoin | cmd/whatsapp_supervisor.go:265-290 | a replacement is built only after every earlier supervisor was joined, and never after close |
| WhatsAppControl.UnpairsOnlyAfterJoin | cmd/whatsapp_supervisor.go:350-384 | the unpair callback runs only after every supervisor was joined and every pair watcher has exited |
| WhatsAppControl.ClosedForGood | cmd/whatsapp_supervisor.go:399-427 | after close nothing is built and no watcher starts |
| WhatsAppControl.GetsSupervisorIff | cmd/whatsapp_supervisor.go:265-290 | in every reachable state a caller gets a supervisor exactly before close, while nobody holds the token, and if one can be built where one is needed; it is the current one, or a new one once that was marked as stopped |
| WhatsAppControl.IsLetInIff | cmd/whatsapp_supervisor.go:306-358 | in every reachable state a rebuild or an unpair is let in exactly before close while nobody holds the token, a rebuild only of the current supervisor; Stop always is |
| WhatsAppControl.RebuildIsElsewhereIff | cmd/whatsapp_supervisor.go:306-320 | a rebuild is refused exactly after close or while somebody holds the token, and otherwise found elsewhere exactly if the supervisor was replaced |
| WhatsAppControl.WatcherStartsIff | cmd/whatsapp_supervisor.go:211-223 | a watcher starts exactly for the current supervisor, before close, while nobody holds the token and the slot is free |
| WhatsAppControl.RebuildGoesOnIff | cmd/whatsapp_supervisor.go:333-345 | over any run a rebuild goes on to a new supervisor exactly if there was no close meanwhile, and gives the token back in any case |
| WhatsAppControl.AwaitsAfterFailure | cmd/whatsapp_supervisor.go:386-397 | a Supervisor.Stop that fails leaves the token with the goroutine that awaits the join, except for Stop itself |
| WhatsAppControl.HolderCanFinish | cmd/whatsapp_supervisor.go:299-397 | no deadlock: from any point of any run before close the holder of the token can finish with steps of its supervisor, the watchers and itself; the token is free then, and the next caller gets a new supervisor |
| WhatsAppControl.SlotStep | cmd/whatsapp_supervisor.go:211-235 | the watcher slot stays honest over every step except exactly one: replacing the supervisor while a watcher is active |
| WhatsAppControl.StuckOrHonest | cmd/whatsapp_supervisor.go:211-215 | a slot that is not honest is stuck, and a stuck slot refuses every watcher |
| WhatsAppControl.StuckStep | cmd/whatsapp_supervisor.go:211-235 | a stuck slot is freed by exactly one kind of step: a caller marking the current supervisor as stopped |
| WhatsAppControl.StuckUntilStopped | cmd/whatsapp_supervisor.go:211-235 | over any run without such a step the slot stays stuck and no watcher starts |
| WhatsAppControl.StuckNeedsRebuild | cmd/whatsapp_supervisor.go:265-290 | over any run, a stuck slot has the replacement of a supervisor under an active watcher behind it |
| WhatsAppControl.SlotCanStick | cmd/whatsapp_supervisor.go:211-235 | a run after which the watcher slot is taken although nobody watches, and no further watcher can start |
| SignalControl.AtMostOneSupervisor | cmd/signal_supervisor.go:155-340 | under any interleaving at most one supervisor is un-joined, and before close the stopping flag has exactly one holder |
| SignalControl.BuildsOnlyAfterJoin | cmd/signal_supervisor.go:155-274 | Connect and restartUnpaired build a replacement only after every earlier supervisor was joined, and never after close |
| SignalControl.UnpairsOnlyAfterJoin | cmd/signal_supervisor.go:278-306 | the unpair callback runs only after every supervisor was joined |
| SignalControl.ClosedForGood | cmd/signal_supervisor.go:318-340 | after close nothing is built, although a Stop that times out marks the supervisor stopped |
| SignalControl.ConnectsIff | cmd/signal_supervisor.go:155-181 | in every reachable state Connect gets a supervisor exactly before close, while nobody holds the token, and if one can be built where one is needed; it is the current one, or a new one once that was marked as stopped |
| SignalControl.IsLetInIff | cmd/signal_supervisor.go:223-288 | in every reachable state a restart or an unpair is let in exactly before close while nobody holds the token, a restart only of the current supervisor; Stop always is |
| SignalControl.RestartIsElsewhereIff | cmd/signal_supervisor.go:223-234 | a restart is refused exactly after close, and otherwise found elsewhere exactly if somebody holds the token or the supervisor was replaced |
| SignalControl.AwaitsAfterFailure | cmd/signal_supervisor.go:308-316 | a Supervisor.Stop that fails leaves the token with the goroutine that awaits the join, except for Stop itself; that goroutine marks the supervisor stopped exactly before close |
| SignalControl.HolderCanFinish | cmd/signal_supervisor.go:223-316 | no deadlock: from any point of any run before close the holder of the token can finish; a restart leaves the replacement it could build, everybody else a stopped supervisor and a free token |
| Pacer.RepairsArePaced | cmd/google_supervisor.go:145-181 | for any number of concurrent and cancelled callers admitted repairs are pairwise at least minInterval apart |
| Pacer.ExactlyOneToken | cmd/google_supervisor.go:122-143 | exactly one token exists, in the channel or with one caller, so giving it back never blocks |
| Pacer.OnlyAdmissionMovesThePace | cmd/google_supervisor.go:145-181 | lastRepairAt moves only at an admission, to its time |
| Pacer.GoesOnIff | cmd/google_supervisor.go:122-181 | a caller takes the token exactly if nobody has it, goes on at once exactly if the interval since the last repair is over, and otherwise sleeps until exactly then |
| Pacer.AdmittedOnTimeIff | cmd/google_supervisor.go:145-181 | a caller that finds the token free is admitted exactly from the moment lastRepairAt + minInterval on: never later either |
| Pacer.CancelledCallerGivesBack | cmd/google_supervisor.go:145-181 | a caller cancelled with the token in hand, after taking it, while asleep or on waking, gives it back whatever others do in between, and leaves the pace as it was |
| Carry.CarryPendingOutbox | internal/cutover/carry.go:112-318 | the loop over the old store fills report and fresh store exactly as the pass does of which VerdictIff, AbortsIff and the safety theorems speak, stopping at the first error |
| Carry.CarryIntent | internal/cutover/carry.go:144-315 | one intent is reported, present, carried or aborts the pass exactly as VerdictIff and AbortsIff say |
| Carry.AbortIsFinal | internal/cutover/carry.go:144-315 | an aborted pass does nothing more |
| CarrySafety.VerdictIff | internal/cutover/carry.go:144-315 | by conditions on intent and store alone: an intent that does not abort the pass is carried exactly if it can be sent, its key is free and it has a schedule; present exactly if its key holds this very intent; and uncarryable for each reason exactly if that is its first obstacle |
| CarrySafety.AbortsIff | internal/cutover/carry.go:144-315 | the pass gives up exactly at a store error, a source row that is not unsent, a conversation of another account, an attachment larger than stated, blank columns, or a damaged row |
| CarrySafety.SendableIsCarried | internal/cutover/carry.go:227-279 | over a whole pass that completes: every unsent text or media intent with its conversation, message, columns, equal stored attachment and schedule, and with a key nobody used before, is named as carried and has its copy in the fresh store |
| CarrySafety.OnlyUnsentIsEnqueued | internal/cutover/carry.go:100-110 | rows that were there are unchanged; every new row is an exact copy of a queued or not-dispatched intent, with its blob copied |
| CarrySafety.ReadyIsCopy | internal/cutover/carry.go:145-218 | what gets ready is an unsent text or media intent, copied field by field into the resolved conversation |
| CarrySafety.VerdictsAreTrue | internal/cutover/carry.go:285-315 | carried means absent before and there now; present means there before with the same identity and untouched |
| CarrySafety.EveryIntentIsAccountedFor | internal/cutover/carry.go:92-98 | the report names, in order, exactly the carried intents, and exactly the uncarryable ones with their reasons; the rest are present; every maybe-sent row is reported |
| CarrySafety.SecondPassCarriesNothing | internal/cutover/carry.go:92-94 | a second pass at any time, with any store errors, carries nothing and changes nothing |
| CarrySafety.InterruptedPass | internal/cutover/carry.go:112-318 | a pass cut short anywhere has got as far as the straight pass had after some intent, but for one copied blob |
| CarrySafety.ResumedPassEqualsOnePass | internal/cutover/carry.go:112-318 | an interrupted pass followed by a full one leaves the fresh store as one full pass does |
| CarrySafety.InsertedIsCarriedIffScheduled | internal/cutover/carry.go:320-339 | an intent that can be sent and whose key is free is always inserted, and reported as carried exactly when it has a schedule |
| CarrySafety.UnscheduledStaysUncarryable | internal/cutover/carry.go:320-339 | the row stored for an intent without a schedule stays, and every later pass reports the intent as uncarryable again |
| CarrySafety.UnscheduledIsCarriedButReported | internal/storage/sqlite/outbox.go:2274-2285 | an intent without a schedule that is inserted and yet reported as uncarryable |
| CookieBridge.OnlyOwnCookies | internal/cookiebridge/bridge.go:187-242 | a call returns only valid cookies that a Reply bearing its own request ID sent |
| CookieBridge.OwnReplyIsReturned | internal/cookiebridge/bridge.go:164-242 | over any run: the first Reply that bears the ID of a selecting call takes the slot, and whatever the others do, short of the timeout of the call, the call has returned exactly these cookies if and only if they are valid and the reply was sent and then received |
| CookieBridge.ReceiveReturnsIff | internal/cookiebridge/bridge.go:233-240 | a call with an answer in its channel returns its cookies exactly if there are any and they are valid, and an error exactly otherwise |
| CookieBridge.AllSixAreNeeded | internal/cookiebridge/bridge.go:236-240 | cookies are valid exactly if each of the six required names has a value that is not blank |
| CookieBridge.RequestReachesHost | internal/cookiebridge/bridge.go:196-221 | a call is refused exactly for want of a host or because another is in flight; otherwise its request is put before the waiting host, or the slot is freed |
| CookieBridge.NewHostTakesOver | internal/cookiebridge/bridge.go:123-138 | a new host takes the slot, the one before it and no other is cancelled, and a pending request is handed over |
| CookieBridge.WaitEnds | internal/cookiebridge/bridge.go:140-160 | a waiting host returns with the request in its channel, or without, and frees the slot unless another host has it |
| CookieBridge.CallGivesUp | internal/cookiebridge/bridge.go:226-232 | a call that times out returns so, and frees the slot if it still has it |
| CookieBridge.ReturnedTakesNoReply | internal/cookiebridge/bridge.go:169-174 | over any run: a Reply to a call that has returned is refused and changes nothing |
| CookieBridge.ChannelsUsedOnce | internal/cookiebridge/bridge.go:164-185 | each reply channel gets at most one send, so "already consumed" cannot happen; no cancel channel is closed twice |
| CookieBridge.NeverWedged | internal/cookiebridge/bridge.go:187-250 | the pending slot belongs to a call in flight, the waiter slot to a waiting host, so that no outcome wedges the registry |
| SearchIndex.RunAgrees | internal/db/messages.go:956-976 | after any sequence of upserts, deletes, merges, repairs and restarts each message has exactly one index row, with its body |
| SearchIndex.SearchIsComplete | internal/db/messages.go:326-333 | a joined search returns each message that matches and passes the filters exactly once, and nothing else |
| SearchIndex.BodyIsLastDelivered | internal/db/messages.go:58-100 | the stored and indexed body is the last non-empty body delivered while the message lasted |
| SearchIndex.ColumnsAreLastDelivered | internal/db/messages.go:58-85 | over any run of operations the stored status is the last one delivered, media and timestamp the last ones delivered that were set, and the conversation the last one delivered, followed through merges |
| SearchIndex.MessageBecomes | internal/db/messages.go:58-85 | column by column, what each operation makes of the message of every id: a delivery keeps stored content against empty and a stored time against one not positive, status and conversation are the delivered ones; merges move, repairs fill in, nothing else changes |
| SearchIndex.SurvivesIff | internal/db/messages.go:969-976 | after an operation a message is there exactly if it was delivered, or was there and is not one of those the operation deletes |
| SearchIndex.DeleteClearsRows | internal/db/messages.go:969-976 | a delete through the index takes exactly the index rows of the deleted messages |
| SearchIndex.ConversationIsKnownIff | internal/db/conversations.go:122-185 | which conversations are known after an operation |
| SearchIndex.RunIsExact | internal/db/messages.go:956-976 | over any run that drops no conversation the index stays exactly the table |
| SearchIndex.EqualCountsAreExact | internal/db/db.go:543-563 | while table and index agree, equal counts mean the index is exactly the table, and a restart always leaves it so |
| SearchIndex.DropIsExactIffEmpty | internal/db/conversations.go:163-185 | DeleteConversation leaves stale index rows exactly when the conversation has messages |
| SearchIndex.InterruptedRepairAgreesIff | internal/db/repair.go:117-191 | between the transaction of a repair and its rebuild the index agrees exactly when no body was filled in |
| SearchIndex.RestartAfterInterruptedRepair | internal/db/repair.go:180-191 | if the rebuild never comes, a restart repairs the index exactly unless the row counts are equal and a surviving body was filled in |
| SearchIndex.RestartCanKeepStaleBody | internal/db/repair.go:185-191 | a store whose index a restart leaves wrong after an interrupted repair |
| SearchIndex.UpsertAgrees | internal/db/messages.go:29-100 | an upsert keeps the agreement |
| SearchIndex.DeleteAgrees | internal/db/messages.go:969-976 | a delete through the index keeps the agreement |
| SearchIndex.RawDeleteAgrees | internal/db/conversations.go:174-176 | a delete behind the index leaves rows over, but none wrong |
| SearchIndex.MergeAgrees | internal/db/conversations.go:122-161 | a merge of conversations keeps the agreement |
| SearchIndex.RepairAgrees | internal/db/repair.go:55-191 | a repair with its forced rebuild keeps the agreement |
| SearchIndex.RepairOfCleanStore | internal/db/repair.go:180-191 | a repair that finds nothing to delete or fill in leaves table and index alone |
| SearchIndex.RebuildIsExact | internal/db/db.go:567-575 | a forced rebuild leaves the index exactly the table |
| Scheduled.SentAtMostOnce | internal/db/scheduled.go:149-158 | over any number of schedulers, cancels, deletes and crashes: one owner per message and at most one successful send |
| Scheduled.CanceledIsNeverSent | internal/db/scheduled.go:183-193 | a message whose cancel succeeded was not sent before and is not sent later |
| Scheduled.CancelSucceedsIff | internal/db/scheduled.go:183-193 | over any run a cancel succeeds exactly while the message is pending, and otherwise changes nothing |
| Scheduled.ClaimIsWonIff | internal/db/scheduled.go:149-158 | over any run a claim is won exactly while the message is pending; who loses it goes on with the next message |
| Scheduled.ClaimedIsSettled | internal/app/scheduler.go:45-96 | over any interleaving: a pending message that a scheduler comes to is claimed, and then sent once and marked so, or counted as one more attempt and put back or failed, whatever other schedulers and cancels do in between |
| Scheduled.FiveClaimsThenFailed | internal/app/scheduler.go:89-96 | with one scheduler a message is claimed at most five times and a fault on the fifth ends Failed |
| Scheduled.StaleListOverrunsBudget | internal/app/scheduler.go:89-96 | over any interleaving, a step keeps a message in its budget of five exactly unless it records a fault of its last attempt from a due list that shows fewer attempts |
| Scheduled.SixthClaimNeedsStaleList | internal/app/scheduler.go:89-96 | every sixth claim has such a step behind it |
| Scheduled.SixthClaimFollows | internal/app/scheduler.go:89-96 | every such step can be followed by a sixth claim |
| Scheduled.TwoSchedulersOverrun | internal/app/scheduler.go:34-96 | a run of two schedulers that claims one message six times |
| Scheduled.TriesEachOnce | internal/app/scheduler.go:34-43 | of an undisturbed due list every message is tried exactly once |
| Scheduled.ProcessDue | internal/app/scheduler.go:34-43 | every due message is tried once and its outcome recorded; nothing else changes |
| Scheduled.SendScheduledMessage | internal/app/scheduler.go:45-96 | claim, then sent, failed or back to pending |
| Export.LoadExportMessages | cmd/export.go:129-156 | for any page size and any range the paged loop returns every message of the inclusive window once, in (timestamp, id) order, and terminates; an `until` that is not positive is open |
| Export.NextPage | internal/db/messages.go:207-232 | after a page the next cursor leaves exactly what the page did not show, however many timestamps are equal |
| Export.StartsWithWindow | cmd/export.go:135-147 | the first cursor and the stop at `until` cut out exactly the window, with an `until` that is not positive as open |
| Export.AppendPage | cmd/export.go:142-147 | appends a page up to the end of the window and says whether that was seen |
| Export.SortChronological | internal/export/export.go:163-182 | the seen-map loop removes repeated ids, then sorts stably |
| Export.DedupKeepsFirsts | internal/export/export.go:163-182 | kept are, in order, exactly the messages without an id and the first message of every id |
| Export.DedupIsDistinct | internal/export/export.go:163-182 | no id is left twice |
| Export.WindowIs | internal/export/export.go:92-101 | the window holds, in order, exactly the messages of the conversation between the two inclusive bounds, each only if set |
| Export.ChronologicalIsKept | internal/export/export.go:163-182 | on a chronological list without repeated ids the sort and the dedup change nothing |
| Export.LoadedIsWindowIff | internal/export/export.go:98-100 | what the loader returns from a store is the window of Range.Contains exactly when `until` is not negative or nothing is returned |
| Export.LoaderAgreesWithContains | internal/export/export.go:98-100 | the loader returns the window of Range.Contains from every store and conversation exactly when `until` is not negative |
| Thread.LoadConversationMessages | cmd/thread.go:144-170 | newest first, dropped and reversed in place: exactly the newest Limit messages of the window, oldest first |
| Thread.WindowIs | cmd/thread.go:144-170 | the window holds, in order, exactly the messages of the conversation between the two inclusive bounds, each only if positive |
| Thread.DropBefore | cmd/thread.go:160-168 | the in-place filter keeps the messages since the bound, in order, at the front |
| Thread.ReverseMessages | cmd/thread.go:174-178 | the swap loop reverses the prefix |
| Thread.NewestOfWindow | cmd/thread.go:136-143 | taking the newest first and then dropping by `since` equals taking the newest of the window |
| Reactions.MergeReaction | internal/db/tapback.go:169-225 | the loops on any decoded list compute the verified edit and whether it did anything |
| Reactions.MergeRefines | internal/db/tapback.go:169-225 | on well-formed lists: inserts into or removes from the emoji's set of actors and leaves other emojis alone |
| Reactions.MergeIsWellFormed | internal/db/tapback.go:169-225 | well-formed lists stay well formed |
| Reactions.CountIsActors | internal/db/tapback.go:157-161 | a count is the number of distinct actors, and positive |
| Reactions.AddIsIdempotent | internal/db/tapback.go:166-168 | adding again does nothing |
| Reactions.AddThenRemoveRestores | internal/db/tapback.go:169-225 | adding a new actor and removing it again restores the list |
| Reactions.ChangedIsRealIff | internal/db/tapback.go:211-213 | "changed" is a real change exactly unless a blank emoji is added |
| Reactions.IndexOfString | internal/db/tapback.go:267-274 | the first position, or −1 exactly when it is missing |
| Reactions.RemoveActor | internal/db/tapback.go:176-187 | every entry for the emoji loses the actor |
| Reactions.AddActor | internal/db/tapback.go:188-206 | the first entry for the emoji gains the actor, or a new one is appended |
| SupervisorLog.StartsAreExclusive | internal/bridge/supervisor.go:654-707 | in any lawful log: when a generation starts, every Run ever produced before has been stopped exactly once |
| SupervisorLog.StoppedAtMostOnce | internal/bridge/supervisor.go:1345-1354 | in any lawful log: no Run is stopped twice |
| SupervisorLog.GenerationsIncrease | internal/bridge/supervisor.go:579-605 | in any lawful log: generations strictly increase from start to start |
| SupervisorLog.NoCommitAfterClose | internal/bridge/supervisor.go:1414-1505 | in any lawful log: nothing is committed downstream for a generation whose gate was closed |
| SupervisorLog.ProbeOnlyAfterSilence | internal/bridge/supervisor.go:823-869 | in any lawful log: a probe begins only LivenessTimeout after every sign of life of its generation |
| SupervisorLog.RepairBeforeReconnect | internal/bridge/supervisor.go:918-972 | in any lawful log: between a credentials-expired failure and the next start some repair returned nil |
| SupervisorLog.RepairBudget | internal/bridge/supervisor.go:1194-1214 | in any lawful log: a streak of failures with one fingerprint begins at most MaxSameFingerprint − 1 automatic repairs |
| SupervisorLog.FailuresAreCounted | internal/bridge/supervisor.go:1194-1225 | in any log: the two failure counters are the failures in a row with the current fingerprint and the transient failures, both since the history was cleared |
| SupervisorLog.AnsweredOnce | internal/bridge/supervisor.go:473-480 | in any lawful log: a command is answered once if it was accepted and does not wait, and otherwise not at all |
| SupervisorLog.PairingWaitsForLimit | internal/bridge/supervisor.go:984-987 | in any lawful log: no pairing begins before the time a blocked or rate-limited outcome named |
| SupervisorLog.PairingIsSingleFlight | internal/bridge/supervisor.go:974-1018 | in any lawful log: a second attempt, or a connection, begins only after the first attempt has returned |
| SupervisorLog.ClosedAttemptNeverPairs | internal/bridge/supervisor.go:1053-1123 | in any lawful log: an expired or blocked attempt never moves the account to Stopped |
| SupervisorRun.DrainRoundSafe | internal/bridge/supervisor.go:1286-1313 | one round of the drain uses up a disturbance, a queued item or rank |
| SupervisorRun.HandleCommandSafe | internal/bridge/supervisor.go:515-577 | what every command is answered in every state, and all that it does when admitted: the first attempt it starts, the repair, the return to Unpaired, the pairing; a refused one changes nothing |
| SupervisorRun.DispatchSafe | internal/bridge/supervisor.go:473-480 | a command taken up is refused with ErrStopped exactly if Stop was called; otherwise the answer of HandleCommandSafe, and no other, is what its caller is sent, at once or deferred to the first attempt |
| SupervisorRun.ShutdownSafe | internal/bridge/supervisor.go:1368-1406 | Stop ends in the final state: gate closed, the waiting caller told ErrStopped, no timer, and live exactly the run that the start worker had answered with before Stop and nobody had looked at, if any |
| SupervisorRun.IterateSafe | internal/bridge/supervisor.go:452-507 | one round keeps the invariant and is exactly the shutdown if Stop was called, else the due deadline, else what the handler of the received item is proved to do; it only appends to the log |
| SupervisorRun.StepSafe | internal/bridge/supervisor.go:452-507 | every step of the loop, the start worker, callbacks and queues keeps the invariant and does exactly what is said of its kind |
| SupervisorRun.Run | internal/bridge/supervisor.go:452-507 | every reachable state satisfies the invariant, or is final after Stop |
| SupervisorSafety.StartGenerationSafe | internal/bridge/supervisor.go:579-634 | from a torn-down connection a start succeeds unless Stop was called; the new generation is one higher and has its deadline, gate and worker |
| SupervisorSafety.BeginCredentialRepairSafe | internal/bridge/supervisor.go:918-949 | a repair is outstanding in RepairingCredentials, or the account is Blocked for want of a repairer |
| SupervisorSafety.HandleRepairResultSafe | internal/bridge/supervisor.go:951-972 | success starts the next generation (unless stopping), failure blocks, results of other epochs change nothing |
| SupervisorSafety.RouteFailureSafe | internal/bridge/supervisor.go:1125-1192 | the routing table of all failure classes, with the circuit, the backoff window below the cap, the rate-limit wait armed for RetryAt, and what is written to the log, restoring the invariant |
| SupervisorSafety.RouteRemembers | internal/bridge/supervisor.go:1125-1214 | the class, fingerprint and counters a routed failure leaves behind, for every class |
| SupervisorSafety.NoteFailureSafe | internal/bridge/supervisor.go:1194-1214 | a failure counts for the circuit as its class and fingerprint say |
| SupervisorSafety.HandleConnectTimeoutSafe | internal/bridge/supervisor.go:771-789 | an outstanding start is cancelled and its gate closed; a run is retired and the failure routed |
| SupervisorSafety.HandleStartResultSafe | internal/bridge/supervisor.go:654-707 | the run is installed, and the waiting caller told success, exactly when the worker answered in time with a run and no error; in every other case the run, if any, is stopped, and one failure, that of the error the worker brought in time, of a nil run, or of the deadline, is both routed and told the caller |
| SupervisorSafety.HandleReadySafe | internal/bridge/supervisor.go:715-749 | readiness leads to Online exactly when neither a completion nor the deadline comes first |
| SupervisorSafety.HandleRunDoneSafe | internal/bridge/supervisor.go:751-769 | a completed run is retired and its failure routed, as a connect timeout if that is due |
| SupervisorSafety.HandleActivitySafe | internal/bridge/supervisor.go:800-821 | activity of another generation, or after its run is gone, changes nothing; any other moves the last sign of life and clears the failure history |
| SupervisorSafety.RescheduleSafe | internal/bridge/supervisor.go:823-844 | Online, the next check is due at min(now + ProbeEvery, last sign + LivenessTimeout) |
| SupervisorSafety.BeginProbeSafe | internal/bridge/supervisor.go:846-869 | a probe that is due takes the loop to Degraded with its deadline armed |
| SupervisorSafety.HandleProbeResultSafe | internal/bridge/supervisor.go:871-916 | a good probe returns to Online with the later of its start and the time it reports, never in the future, as sign of life; a failed or late one retires the run and routes its failure; stale results change nothing |
| SupervisorSafety.BeginPairingSafe | internal/bridge/supervisor.go:974-1018 | pairing is admitted exactly with a pairer, from Unpaired, with no attempt outstanding, and not before RetryAt |
| SupervisorSafety.HandlePairEventSafe | internal/bridge/supervisor.go:1020-1051 | events of old epochs or after the attempt was closed change nothing; a blocked event closes it until its time; a dated code arms the expiry or expires at once |
| SupervisorSafety.ExpirePairingSafe | internal/bridge/supervisor.go:1053-1070 | an expired attempt leaves the account Unpaired while it drains |
| SupervisorSafety.HandlePairResultSafe | internal/bridge/supervisor.go:1072-1123 | an attempt that is closed or out of time ends Unpaired; otherwise success ends Stopped and a failure Unpaired or Blocked by its class, remembered as the last failure |
| SupervisorSafety.EnforceDueDeadlineSafe | internal/bridge/supervisor.go:1243-1281 | exactly a due deadline fires, and does from each state exactly what that state says |
| SupervisorSafety.FireLivenessSafe | internal/bridge/supervisor.go:1255-1263 | before the liveness deadline the check is put off strictly past now, otherwise a probe begins |
| SupervisorSafety.ReceiveSafe | internal/bridge/supervisor.go:482-505 | every receive takes what the select found, with its error as it came, to the handler whose effects are proved, keeps the invariant and uses up a queued item or rank |
| Bridge.ClampActivityTime | internal/bridge/supervisor.go:1620-1625 | a reported time is never in the future; a set time that is not in the future is kept |
| Bridge.ClassifyFailure | internal/bridge/supervisor.go:1594-1618 | every routed failure has a class, an operation and a fingerprint, and keeps what the error carried |
| Backoff.BackoffCap | internal/bridge/supervisor.go:1580-1592 | the doubling loop yields min(max, min·2^(attempt−1)), stays within [min, max] throughout, and never exceeds max on the way, so that an int64 cannot overflow |
| Backoff.CapReached | internal/bridge/supervisor.go:1580-1592 | once an attempt reaches the maximum every later one stays there |
| Backoff.CapMonotone | internal/bridge/supervisor.go:1580-1592 | the cap never falls with the attempt and always admits a draw |
| Supervisor.SupervisorLoop.constructor | internal/bridge/supervisor.go:223-289 | a new loop is in the initial state that the whole-run theorems start from |
| Supervisor.SupervisorLoop.StartGeneration | internal/bridge/supervisor.go:579-634 | updates the fields as the verified transition does, with its reply |
| Supervisor.SupervisorLoop.StartAndDeferReply | internal/bridge/supervisor.go:636-642 | the reply is deferred exactly when the start went through |
| Supervisor.SupervisorLoop.ResolvePendingStart | internal/bridge/supervisor.go:647-652 | the waiting caller is answered once and forgotten |
| Supervisor.SupervisorLoop.HandleStartResult | internal/bridge/supervisor.go:654-707 | takes every branch into exactly the state that HandleStartResultSafe is proved of |
| Supervisor.SupervisorLoop.HandleReady | internal/bridge/supervisor.go:715-749 | updates the fields step by step into exactly the state that HandleReadySafe is proved of |
| Supervisor.SupervisorLoop.HandleRunDone | internal/bridge/supervisor.go:751-769 | updates the fields step by step into exactly the state that HandleRunDoneSafe is proved of |
| Supervisor.SupervisorLoop.HandleConnectTimeout | internal/bridge/supervisor.go:771-789 | updates the fields step by step into exactly the state that HandleConnectTimeoutSafe is proved of |
| Supervisor.SupervisorLoop.HandleActivity | internal/bridge/supervisor.go:800-821 | updates the fields step by step into exactly the state that HandleActivitySafe is proved of |
| Supervisor.SupervisorLoop.RefreshLivenessDeadline | internal/bridge/supervisor.go:823-832 | the deadline is the latest sign of life plus LivenessTimeout |
| Supervisor.SupervisorLoop.ScheduleLivenessCheck | internal/bridge/supervisor.go:834-844 | the check is armed for the earlier of ProbeEvery and the liveness deadline |
| Supervisor.SupervisorLoop.BeginProbe | internal/bridge/supervisor.go:846-869 | updates the fields step by step into exactly the state that BeginProbeSafe is proved of |
| Supervisor.SupervisorLoop.HandleProbeResult | internal/bridge/supervisor.go:871-916 | updates the fields step by step into exactly the state that HandleProbeResultSafe is proved of |
| Supervisor.SupervisorLoop.BeginCredentialRepair | internal/bridge/supervisor.go:918-949 | updates the fields step by step into exactly the state that BeginCredentialRepairSafe is proved of |
| Supervisor.SupervisorLoop.HandleRepairResult | internal/bridge/supervisor.go:951-972 | updates the fields step by step into exactly the state that HandleRepairResultSafe is proved of |
| Supervisor.SupervisorLoop.BeginPairing | internal/bridge/supervisor.go:974-1018 | gives the reply and reaches the state that BeginPairingSafe is proved of |
| Supervisor.SupervisorLoop.HandlePairEvent | internal/bridge/supervisor.go:1020-1051 | updates the fields step by step into exactly the state that HandlePairEventSafe is proved of |
| Supervisor.SupervisorLoop.ExpirePairing | internal/bridge/supervisor.go:1053-1070 | updates the fields step by step into exactly the state that ExpirePairingSafe is proved of |
| Supervisor.SupervisorLoop.HandlePairResult | internal/bridge/supervisor.go:1072-1123 | updates the fields step by step into exactly the state that HandlePairResultSafe is proved of |
| Supervisor.SupervisorLoop.RouteFailure | internal/bridge/supervisor.go:1125-1192 | routes in place into exactly the state that RouteFailureSafe is proved of |
| Supervisor.SupervisorLoop.BackOff | internal/bridge/supervisor.go:1157-1176 | the backoff wait is drawn below the cap the loop computed |
| Supervisor.SupervisorLoop.RecordFingerprint | internal/bridge/supervisor.go:1194-1214 | the counters move as the circuit says, and it opens exactly at MaxSameFingerprint |
| Supervisor.SupervisorLoop.DrawJitter | internal/bridge/supervisor.go:1227-1241 | a draw outside [0, cap) is refused |
| Supervisor.SupervisorLoop.EnforceDueDeadline | internal/bridge/supervisor.go:1243-1281 | fires, and says so, exactly as EnforceDueDeadlineSafe is proved of |
| Supervisor.SupervisorLoop.DrainReadyWork | internal/bridge/supervisor.go:1286-1313 | the drain loop terminates and equals the verified drain |
| Supervisor.SupervisorLoop.RetireCurrent | internal/bridge/supervisor.go:1335-1354 | the gate is closed and the run stopped once and forgotten |
| Supervisor.SupervisorLoop.ClearGenerationContext | internal/bridge/supervisor.go:1356-1366 | the gate of the current generation is closed |
| Supervisor.SupervisorLoop.HandleCommand | internal/bridge/supervisor.go:515-577 | gives the reply and reaches the state that HandleCommandSafe is proved of |
| Supervisor.SupervisorLoop.Dispatch | internal/bridge/supervisor.go:473-480 | a command taken up is accepted once and answered now or later |
| Supervisor.SupervisorLoop.Shutdown | internal/bridge/supervisor.go:1368-1406 | the in-place shutdown equals the verified transition to the final state |
| Supervisor.SupervisorLoop.Iterate | internal/bridge/supervisor.go:452-507 | one round of the run loop equals the verified round |
| Supervisor.SupervisorLoop.Step | internal/bridge/supervisor.go:452-507 | from any good state every step equals the verified step and reaches a good state |
| Supervisor.SupervisorLoop.CalledBack | internal/bridge/supervisor.go:1476-1505 | a callback reaches the downstream sink exactly when the gate is open for its generation |
| Supervisor.SupervisorLoop.Arrive | internal/bridge/supervisor.go:1507-1547 | a full activity queue drops, a full or closed pairing queue refuses |
| Fence.RunSafe | internal/bridge/supervisor.go:1414-1505 | the invariant of lock, readers, writer and retired generations holds in every reachable state |
| Fence.GenerationFence.Check | internal/bridge/supervisor.go:1486-1490 | a callback passes exactly while its generation is the active one |
| WhatsAppControl.RunSafe | cmd/whatsapp_supervisor.go:211-427 | token, join, caller and watcher invariants hold in every reachable state |
| WhatsAppControl.Control.ActiveSupervisor | cmd/whatsapp_supervisor.go:265-290 | refused while closed or stopping, else the current or a newly built supervisor |
| WhatsAppControl.Control.EnterRebuildUnpaired | cmd/whatsapp_supervisor.go:306-320 | admits one caller, and only for the current supervisor |
| WhatsAppControl.Control.LeaveRebuildUnpaired | cmd/whatsapp_supervisor.go:333-345 | gives the token back; marks the supervisor stopped unless closed |
| WhatsAppControl.Control.EnterStopAndUnpair | cmd/whatsapp_supervisor.go:350-358 | admits one caller while open |
| WhatsAppControl.Control.LeaveAwaitStopped | cmd/whatsapp_supervisor.go:386-397 | marks only the awaited supervisor, and not after close |
| WhatsAppControl.Control.StartPairWatcher | cmd/whatsapp_supervisor.go:211-223 | at most one watcher, of the current supervisor, while open |
| WhatsAppControl.Control.LeavePairWatcher | cmd/whatsapp_supervisor.go:225-233 | only the newest watcher of the current supervisor frees the slot |
| SignalControl.RunSafe | cmd/signal_supervisor.go:155-340 | token, join and caller invariants hold in every reachable state |
| SignalControl.Control.AdmitConnect | cmd/signal_supervisor.go:155-181 | refused while closed or stopping, else the current or a newly built supervisor |
| SignalControl.Control.EnterRestartUnpaired | cmd/signal_supervisor.go:223-234 | admits one caller, and only for the current supervisor |
| SignalControl.Control.LeaveRestartUnpaired | cmd/signal_supervisor.go:243-269 | builds the replacement while open, else marks the supervisor stopped; gives the token back |
| SignalControl.Control.EnterStopAndUnpair | cmd/signal_supervisor.go:278-288 | admits one caller while open |
| SignalControl.Control.LeaveAwaitStopped | cmd/signal_supervisor.go:308-316 | marks only the awaited supervisor, and not after close |
| Pacer.RunSafe | cmd/google_supervisor.go:122-181 | token and spacing invariants hold in every reachable state |
| Pacer.Repairer.Assess | cmd/google_supervisor.go:151-159 | the wait is what is left of the minimum interval since the last repair, and is counted |
| Carry.FreshStore.EnqueueOutgoing | internal/storage/sqlite/outbox.go:419-512 | insert if the key is free, else compare with the row that is there; a row that agrees but lost its message or attachment is an error |
| CookieBridge.RunSafe | internal/cookiebridge/bridge.go:114-250 | the slot, channel and delivery invariants hold in every reachable state |
| CookieBridge.Registry.EnterWait | internal/cookiebridge/bridge.go:122-136 | takes the waiter slot; says whom to cancel and which request to hand over |
| CookieBridge.Registry.LeaveWait | internal/cookiebridge/bridge.go:138-144 | frees the slot only if this host still has it |
| CookieBridge.Registry.BeginRequest | internal/cookiebridge/bridge.go:196-207 | offline, in flight, or admitted with the slot taken |
| CookieBridge.Registry.TakePending | internal/cookiebridge/bridge.go:169-176 | only the pending request is taken, and only once |
| CookieBridge.Registry.ClearPending | internal/cookiebridge/bridge.go:244-250 | clears only the own request |
| SearchIndex.Store.UpsertMessageAndReportNew | internal/db/messages.go:29-56 | merges, re-indexes, and reports whether the id was absent before |
| SearchIndex.Store.DeleteMessages | internal/db/messages.go:969-976 | index rows go with the messages |
| SearchIndex.Store.RebuildFTS | internal/db/db.go:543-563 | rebuilds exactly when the counts differ |
| SearchIndex.Store.DropConversation | internal/db/conversations.go:163-185 | a blank id does nothing; otherwise the table alone loses the messages |
| SearchIndex.Store.MergeConversationIDs | internal/db/conversations.go:122-161 | moves the messages of a conversation that exists; nothing else changes but which conversations exist |
| SearchIndex.Store.RepairLegacy | internal/db/repair.go:55-191 | rebuilds exactly when something was deleted or filled in |
| Scheduled.RunSafe | internal/app/scheduler.go:34-96 | owner, send and cancel invariants hold in every reachable state |
| Scheduled.Store.ClaimScheduledMessage | internal/db/scheduled.go:149-158 | wins only from pending |
| Scheduled.Store.CancelScheduledMessage | internal/db/scheduled.go:183-193 | succeeds only from pending |
| Timeline.AscendingIsUnique | internal/db/messages.go:207-232 | an ascending sequence is determined by its messages |
| Timeline.SortFilter | internal/db/messages.go:207-232 | filtering a table and sorting it commute |

## Left out

- Transports, HTTP, Chrome, keychains, signal-cli, whatsmeow, libgm and Slack: Lifecycle, Run, Pairer, repairer and sinks are arbitrary environment.
- Go panics, nil checks of typed interfaces, logging, JSON encoding and decoding, regular expressions.
- The contents of StartRequest and PairRequest, account and platform names, and validation of constructor arguments other than the policy.
- The delay handed to the clock's timer and the tick it delivers: the deadline comparison at the top of the loop is authoritative, a tick is a round in which nothing is found.
- Cancellation of probe, repair and pairing workers as a hint to them: their results may arrive at any time, and are judged when received.
- The start worker, callbacks and arrivals take their steps between handlers, not inside one; the fence is modelled at the level of single lock operations on its own.
- The lock of pairingSink, which follows the protocol of the generation fence with an attempt in place of a generation: events are queued only while the attempt is open, and the queue is emptied for each attempt.
- A start result of another generation: one worker answers before the next is started, so the branch that stops such a run cannot be reached.
- The attempt of a transient failure is counted when the failure is noted, not when its wait is drawn; nothing looks in between.
- Messages of blocked pairing events are taken as already trimmed.
- routeFailure clears the failure history of an unpaired account without recording its fingerprint first; the model records and clears it in the same step.
- Errors returned by Run.Stop, and the final error of Supervisor.Stop.
- SupervisorRun.Drain: termination rests on an environment that comes to rest; one that forever feeds the queues during a Sync keeps the loop in the drain.
- Wrap-around of 64-bit counters, epochs and times, except in backoffCap.
- The last fingerprint remembered by the Signal control and its park retest loop, which only calls Connect.
- A control without any supervisor (nil), which the program never builds; unpairing it would panic.
- Pacer.Repairer.Assess: the timer and the clock that is read are taken to be one clock.
- The Google control other than its repair pacer.
- SupervisorLog.ProbeOnlyAfterSilence: a sign of life is dated when the loop handles it; activity dropped by a full queue is not seen.
- Carry.FreshStore.EnqueueOutgoing: row state, creation and update times are left out, and one flag of a row says whether its message and attachment are still consistent; constraint errors other than the key are among the errors that abort a pass.
- Reaction and read-receipt intents beyond being reported as uncarryable.
- CookieBridge.Registry.TakePending: request IDs are numbers that never repeat, in place of 128 random bits; a Reply trims its ID, an unknown or empty one changes nothing.
- SearchIndex.Store.UpsertMessageAndReportNew: three columns stand for the three merge rules; drafts and display protocol are left out, of conversations only the ids are kept, and the index is taken to be enabled.
- SearchIndex.SearchIsComplete: the order of the results and their LIMIT, the exchange of swapped bounds, and the fall-back to LIKE when the index finds nothing are left out; the trigram match is any predicate on bodies, the phone, conversation, river and date filters are any predicate on messages.
- Scheduled.Store.MarkScheduledMessageSent: message IDs, error texts and media are left out.
- Scheduled.SentAtMostOnce: a transport that fails after delivering is a failed send here, as it is for the program.
- Export.LoadExportMessages: rows with a timestamp that is not positive, or with an empty id, are excluded because the cursor cannot reach them.
- Rendering of messages (sender names, time stamps, CSV, YAML).
- Thread.LoadConversationMessages: resolving the conversation from a query.
- Parsing of tapbacks and the search for their target message.
- Command line, terminal interface, wiring, backup, importers, contacts, rivers, tabs, drafts, capability registry and counters.
