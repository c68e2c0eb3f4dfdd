# Zakros, modelled and proved

This project models the parts of Zakros where correctness depends on many operations working together, and proves
properties of them in Dafny. `dafny verify dfyconfig.toml` checks everything. Nothing here was executed; the statements
are about the model, and each model file names the source files it follows.

## What is modelled

**Task supervision.** Minos and Argus share one task table and one set of pods. `Tasks.dfy` has the table and its
state machine, `ArgusRules.dfy` the rules Argus applies to one pod (with Go's 64-bit durations and truncating
division), `Supervision.dfy` every operation as a function on the shared state, and `Runs.dfy` a transition system in
which those operations follow one another in any order: commissions, respawns, webhooks, sweeps, heartbeats, Argus
ticks, Argus restarts between operations, Reconcile at any Minos start, time, and pods that change or disappear on
their own. `PodPhase` may answer anything, per task and per pass, or answer from the pod set with some pods out of
reach. The code itself, which updates objects in place, is in `TaskStore.dfy`, `Dispatchers.dfy`, `ArgusDaemon.dfy`
and `MinosServer.dfy`; each of their methods is proved to compute the function of the same operation, and
`Outcomes.dfy` says branch by branch what those functions make of a task, its entry and its pod. The theorems are in
`TaskHistory.dfy`, `Invariants.dfy`, `CapEnforcement.dfy`, `Agreement.dfy`, `StartupOrder.dfy`,
`CrashTransparency.dfy`, `HealthyPods.dfy`, `Survival.dfy`, `Notices.dfy`, `Forgetting.dfy`, `StaleRuns.dfy` and
`HibernationSweep.dfy`; `Traces.dfy` has runs from an empty start that reach the exceptional states.

**Messages to Iris.** `PullRing.dfy` is the bounded pull buffer as the tail of an unbounded log, `Poller.dfy` the cursor
loop and what it delivers, `Iris.dfy` the conversation store and the handler that looks a message up before acting,
`ToolLoop.dfy` the bounded exchange with the model.

**Identities and chat.** `Identities.dfy` is the registry, `ChatCommands.dfy` the chat commands and the command gate,
`ChatLaws.dfy` what they get done, told in the words an operator types, `Administration.dfy` the handlers and the
bootstrap, `Governance.dfy` what every run of them keeps, `CommissionParser.dfy` the `/commission` command.

**Once only.** `WebhookReplay.dfy` is the Slack verifier with its replay store, `BrokerAuth.dfy` the broker's bearer
check with its own.

**Text and tokens.** `Sanitizer.dfy` and `Redaction.dfy` are the secret sanitizer, with its eight credential shapes as
explicit expressions and a matcher that backtracks as the source's does; `Tokens.dfy` goes from a project's
configuration through the signed body to the claims a broker reads (claim names of RFC 7519, section 4.1).
`Text.dfy` and `Options.dfy` hold the few borrowed string operations and the option type.

## Where the code and its comments disagree

The model follows the code.

- `StartedAt` is overwritten on every entry to running (minos/storage/memstore/memstore.go:117), although
  minos/storage/storage.go:77 keeps the first start.
- `discover` never drops an entry (minos/argus/argus.go:328-334), although minos/core/api.go:526 relies on it.
- `rehydrate` keeps rows whose pod is missing, because a missing pod is reported as an error
  (minos/argus/argus.go:248, minos/dispatch/fakedispatch/fakedispatch.go:66).
- `RemoveCapability` has no last-admin check (minos/identity/memstore/memstore.go:141-157), although
  minos/identity/identity.go:51-54 promises one.
- The replay store's comment asks for keys with their source in front (cerberus/core/replay/replay.go:38-39); the Slack
  verifier passes the bare delivery id (cerberus/verification/slack/slack.go:131-134). The once-ever theorem holds with
  other users of the store under any keys.

## What turned out false, and exactly when it holds

- **Supervision agreement** fails after a Reconcile that finds the pod of a tracked run Succeeded: the task hibernates
  while Argus still tracks the run. `AgreementStep` shows that this step, and no other, breaks agreement; a run agrees
  throughout if and only if it has no such step (`AgreesThroughoutIffUndisturbed`), and a Reconcile at the start alone
  never is one (`AgreementFromStart`). `ReconcileThenReviewLosesRun` follows the break with a review and a tick, after
  which the new run's live pod is tracked by nobody; `LostRunIsReached` is such a run from an empty start.
- **No healthy pod is killed** holds for every commissioned run (`CommissionedRunSurvives`) but not for every run
  launched by a review or a mention: an entry still tracked for an earlier run of the task can end it, as in
  `LostRunIsReached`. Such a run survives every run harmless to its pod if and only if an entry still tracked for its
  task at the respawn names a pod that is gone and, where there is a cap, a start at that instant and, where there is
  a stall threshold, a sign of life at that instant (`RespawnedRunSurvives`). Under agreement nothing is tracked at a
  respawn (`AgreeingRespawnIsUp`).
- **One warning and one escalation per run** fails if Argus restarts at a moment when the dispatcher calls a live
  pod's phase unknown or over: the entry is dropped, found again by `discover`, and the notice posted again
  (`ForgetfulRestartWarnsAgain`, `SecondWarningIsReached`). After every run without such a restart, disturbing
  Reconciles included, a restart admits a later run that repeats a notice if and only if it drops a warned or
  escalated entry of a run still on and under its cap (`RestartRepeatsIffItForgets`,
  `ReachedRestartRepeatsIffItForgets`); without such a restart it holds in every run (`NoticesStayOrderly`).
- **A token once** fails for a request that the signature check passes before the expiry and the replay store sees
  after it, because the store reads its own clock (`StraddledTokenUsedTwice`). A token is let through at most once if
  and only if no request after its first use passes the other checks and straddles the expiry (`AllowedAtMostOnce`).
- **A delivery once ever** holds if and only if the store never cleans up or keeps ids for at least twice the allowed
  skew (`OnceEverIffWindowCovers`); 24 hours against 5 minutes does.
- **Cursor reset on a broker restart** happens after the first batch of the new instance was fetched with the old
  cursor. If that batch is not empty, the new instance's messages up to the old cursor never reach the handler
  (`FirstReadAfterRestart`, `RestartHides`). The new instance is accounted for as the first one was if and only if
  that batch is empty or what it leaves out had been evicted anyway (`RestartAccountedFor`). A new instance's numbers
  can also meet old ones in a conversation, and such a message is dropped (`DroppedIffNumberRecorded`).
- **Known values disappear** from sanitized text, whatever the body and the other known values are, if and only if
  they have at least four bytes and are apart from markers or hold a credential (`WhichValuesVanish`). Apart from
  markers means: no part of the marker, not holding it, not beginning with an end of it and not ending with a
  beginning of it. For values without angle brackets or credentials that is to be no part of the word in it
  (`WhichPlainValuesVanish`).
- **Parser round trip** holds exactly when the summary does not itself begin with a token (`RoundTrip`).
- **An expired pairing request** blocks its contact until a sweep of the expired requests or a restart whose
  configuration names the contact: after any messages, sweeps and restarts the contact is still unregistered behind it
  if and only if there was neither (`ExpiredRequestLocksOut`, reached in `StuckPairingIsReached`); no command causes
  that sweep.

## Model

| member | source | states |
|---|---|---|
| TaskHistory.HistoryKeeps | minos/storage/memstore/memstore.go:37-203 | Over any interleaving of store calls by all components under one clock: FinishedAt is set exactly in terminal states, live runs carry pod and run id, times are ordered, a pull request names one task, and terminal rows are frozen |
| TaskHistory.CallKeeps | minos/storage/memstore/memstore.go:100-172 | One store call keeps all of that |
| TaskHistory.TrailIsPath | minos/storage/memstore/memstore.go:100-123 | The states a task goes through form a path of valid transitions |
| TaskHistory.ReachesIsPaths | minos/storage/memstore/memstore.go:188-203 | Which states some path of valid transitions joins; completed and failed join only themselves |
| Invariants.StepIsCalls | minos/core/commission.go:208-276 | Every operation of Minos, Argus, webhooks and sweeper changes the table only through store calls that keep to the discipline of dispatch |
| Invariants.RunInv | minos/argus/argus.go:142-373 | In every reachable state a tracked entry carries its task's budget, a start no later than the task's, an honest heartbeat and a pod minted for that task; the persisted map equals the tracked one; every row only evolves |
| Invariants.InitialInv | minos/argus/argus.go:102-124 | The empty start satisfies the invariant |
| Invariants.EvaluateAllAt | minos/argus/argus.go:376-420 | A pass does to one task exactly what one visit to it does, whatever the order |
| Invariants.PassIsArbitrary | minos/argus/argus.go:376-420 | A pass over live pods is a pass over some fixed answers |
| Outcomes.VisitRules | minos/argus/argus.go:386-500 | The rules in the order the source tries them, each with its condition and with what becomes of row, pod, entry, flags and events |
| Outcomes.DiscoverRules | minos/argus/argus.go:328-370 | Exactly which tasks discover adds, and every field of the new entry |
| Outcomes.RestartRules | minos/argus/argus.go:229-261 | A restart keeps an entry, unchanged, exactly if its pod is not named terminal or of unknown phase |
| Outcomes.HeartbeatRules | minos/argus/argus.go:196-210 | A heartbeat moves the last sign of life of a tracked task, in memory and persisted, and nothing else |
| Outcomes.ReconcileRules | minos/core/reconcile.go:41-98 | What a start of Minos makes of each task, for every answer about its pod |
| Outcomes.DispatchRules | minos/core/commission.go:208-276 | With a pod the task runs under it from this instant; without one it fails; nothing else changes |
| Outcomes.CommissionRules | minos/core/commission.go:51-202 | The row a commission leaves, field by field, with a pod or without |
| Outcomes.RespawnRules | minos/core/commission.go:288-331 | A review or mention dispatches the task of its pull request exactly if it awaits review |
| Outcomes.ClosedRules | minos/core/api.go:471-530 | Merged completes, unmerged fails, terminal stays |
| Outcomes.SweepRules | minos/core/hibernate.go:18-96 | Past the abandon age a task awaiting review fails, past the reminder age it is marked once, every other row stays |
| CapEnforcement.CapIsEnforced | minos/argus/argus.go:296-420 | After every tick of every run no task is running at or past its wall-clock cap, whatever PodPhase answers |
| Agreement.AgreementStep | minos/core/reconcile.go:41-80 | A step keeps what Argus tracks in agreement with the table if and only if it is not a Reconcile that finds a tracked run's pod Succeeded |
| Agreement.RunAgrees | minos/argus/argus.go:319-443 | Agreement over whole runs without such a step |
| Agreement.AgreesThroughoutIffUndisturbed | minos/core/reconcile.go:41-80 | A run from agreement agrees in each of its states if and only if it has no such step |
| Agreement.AgreementFromStart | minos/core/reconcile.go:30-39 | From an empty start, with Reconcile only at the start, agreement holds in every state of every run |
| Agreement.ArgusJudgesOwnPod | minos/argus/argus.go:376-463 | Under agreement, a tick that takes a task out of running adds one event, a final verdict on that task's own run and pod, and moves the task where the verdict says |
| StaleRuns.StaleEntryEndsNewRun | minos/argus/argus.go:427-446 | A stale entry whose pod is called succeeded, by the live pod set or at will, hibernates the task's new run and leaves its pod alive |
| StaleRuns.ReconcileThenReviewLosesRun | minos/core/reconcile.go:65-67 | From every such state, restart of Minos, review and tick lose the new run |
| Traces.LostRunIsReached | minos/core/reconcile.go:65-67 | A run from an empty start, the dispatcher answering from the live pod set, at whose end a live pod is tracked by nobody |
| StartupOrder.StartupOrderIrrelevant | minos/core/reconcile.go:30-98 | Reconcile then a pass, and a pass then Reconcile, leave the same tasks, pods, tracked and persisted entries, over the live pod set with any pods out of reach or any fixed answers, for all phases and visiting orders |
| StartupOrder.AgreeingStatesQualify | minos/argus/argus.go:319-373 | Every reachable agreeing state, once discovered, meets what that needs |
| StartupOrder.PassForeseen | minos/argus/argus.go:376-464 | While pods are distinct, ending one run cannot change what is seen of another |
| CrashTransparency.CrashIsTransparent | minos/argus/argus.go:229-261 | A crash between operations is invisible to every task whose entry the restart keeps: same row, entry, pods, warnings, escalations and terminations after the same later operations, over the live pod set or any answers, whatever orders the ticks of either process visit the pods in |
| CrashTransparency.RestartLosesOnlyDropped | minos/argus/argus.go:229-261 | A restart loses exactly the entries whose pod is terminal or of unknown phase, and changes no other |
| CrashTransparency.TwinRuns | minos/argus/argus.go:142-464 | Two states alike for one task stay alike for it through the same operations, each visiting the pods in orders of its own, whatever becomes of the other tasks |
| HealthyPods.HealthyPodSurvives | minos/argus/argus.go:376-420 | A pod that stays pending or running, within its cap and heard from in time, is never deleted or failed by Argus, as long as what Argus tracks for its task at the beginning is about this pod or one that is gone and, where cap and stall threshold are set, about its start and signs of life |
| HealthyPods.LaunchedRunIsUp | minos/core/commission.go:208-276 | The theorem applies from every launched commission on |
| HealthyPods.AgreeingRespawnIsUp | minos/core/commission.go:288-331 | Under agreement it applies from every respawn on |
| Survival.RespawnedRunSurvives | minos/argus/argus.go:376-420 | A respawned run survives every run harmless to its pod if and only if an entry still tracked for its task names a pod that is gone and, where they matter, a start and a sign of life at the respawn |
| Survival.SurvivesIffInStep | minos/argus/argus.go:376-420 | The same for every run just launched, told by what Argus tracks for its task |
| Survival.CommissionedRunSurvives | minos/core/commission.go:208-276 | Every commissioned run survives |
| HealthyPods.TickSparesHealthy | minos/argus/argus.go:376-420 | One tick leaves such a run's row and pod alone |
| HealthyPods.NothingDueAfterTicks | minos/argus/argus.go:376-420 | After every tick of every run nothing tracked is over its cap, stalled, or about a pod seen Succeeded or Failed, before or after the pass |
| HealthyPods.TickLeavesNothingDue | minos/argus/argus.go:376-420 | The same for one tick, over the live pod set or any answers |
| Notices.NoticesStayOrderly | minos/argus/argus.go:406-418 | Without a forgetful restart: at most one warning and one escalation a run, none at or past the cap, none after the end, each quoting a true percentage |
| Notices.ForgetfulRestartWarnsAgain | minos/argus/argus.go:248-256 | A restart that drops a warned live run's entry leads to a second warning |
| Forgetting.RestartRepeatsIffItForgets | minos/argus/argus.go:229-261 | From every state of every run without a forgetful restart, disturbed or not, a restart admits a later run that repeats a notice if and only if it drops a warned or escalated entry of a run still on and under its cap |
| Forgetting.GentleRunsQualify | minos/argus/argus.go:406-418 | Every run without a forgetful restart goes through such states: a set flag means a notice was due and was posted, and an entry about the task's current run has that run's pod and start |
| Forgetting.StepAligned | minos/argus/argus.go:337-370 | Every step, a disturbing Reconcile included, keeps the pod and start of entries about current runs those of the runs |
| Forgetting.ReachedRestartRepeatsIffItForgets | minos/argus/argus.go:229-261 | The same if and only if, from an empty start |
| Traces.SecondWarningIsReached | minos/argus/argus.go:248-256 | A run from an empty start, the dispatcher answering from the live pod set, in which one run is warned about twice |
| ArgusRules.ThresholdProductFits | minos/argus/argus.go:146-167 | Caps of at most 92233720 seconds keep the threshold product in 64 bits; at 100 percent the bound is exact |
| ArgusRules.SaneThresholds | minos/argus/argus.go:146-167 | Within the bound the thresholds are the exact percentages of the cap |
| ArgusRules.QuotedPercentage | minos/argus/argus.go:548-553 | The quoted percentage lies between the configured one and 99 |
| HibernationSweep.OneReminderAStay | minos/core/hibernate.go:18-96 | Along every run each stay in awaiting-review gets at most one reminder, re-armed by every change of state |
| HibernationSweep.SweepLeavesNothingDue | minos/core/hibernate.go:18-40 | After a sweep nothing is at or past the abandon age and nothing past the reminder age is unmarked |
| TaskStores.TaskStore.InsertTask | minos/storage/memstore/memstore.go:37-59 | Inserts the normalised row, or reports the conflict |
| TaskStores.TaskStore.TransitionTask | minos/storage/memstore/memstore.go:100-123 | The eight transitions there are, the stamps of each, and the refusals |
| TaskStores.TaskStore.SetTaskRun | minos/storage/memstore/memstore.go:126-137 | Records run and pod |
| TaskStores.TaskStore.SetTaskPR | minos/storage/memstore/memstore.go:140-160 | Binds a URL unless another task has it |
| TaskStores.TaskStore.MarkTaskReminded | minos/storage/memstore/memstore.go:162-172 | Stamps the reminder |
| TaskStores.TaskStore.FindTaskByPRURL | minos/storage/memstore/memstore.go:175-186 | Finds the bound task, if any |
| TaskStores.TaskStore.ListTasks | minos/storage/memstore/memstore.go:73-98 | Exactly the matching rows, each once, newest first; a limit cuts off only rows no newer than those kept |
| TaskStores.CutOff | minos/storage/memstore/memstore.go:92-96 | Cutting a sorted listing short loses only rows no newer than the last one kept |
| Dispatchers.Dispatcher.SpawnPod | minos/dispatch/fakedispatch/fakedispatch.go:35-48 | A new pending pod, or a refusal that changes nothing |
| Dispatchers.Dispatcher.DeletePod | minos/dispatch/fakedispatch/fakedispatch.go:50-60 | Removes one pod |
| Dispatchers.Dispatcher.PodPhase | minos/dispatch/fakedispatch/fakedispatch.go:62-72 | The phase, or that there is no such pod |
| ArgusDaemon.MemPersister.Load | minos/argus/persister.go:61-70 | Every persisted row once |
| ArgusDaemon.Argus.TrackTask | minos/argus/argus.go:142-175 | Tracks a task in memory and in the persister |
| ArgusDaemon.Argus.UntrackTask | minos/argus/argus.go:177-194 | Forgets it in both |
| ArgusDaemon.Argus.Heartbeat | minos/argus/argus.go:196-210 | Moves the last sign of life of a tracked task, persisted |
| ArgusDaemon.Argus.RehydrateStates | minos/argus/argus.go:229-261 | Computes what Rehydrate says of the persisted rows and the pods |
| ArgusDaemon.Argus.DiscoverRunning | minos/argus/argus.go:319-373 | Computes Discover: an entry for every running task that has none |
| ArgusDaemon.Argus.Decide | minos/argus/argus.go:376-420 | The branch taken is the verdict of the rules |
| ArgusDaemon.Argus.Visit | minos/argus/argus.go:386-420 | One round of the loop computes one visit |
| ArgusDaemon.Argus.Evaluate | minos/argus/argus.go:376-424 | The loop over live objects computes the pass, visiting every tracked task once |
| ArgusDaemon.Argus.HibernatePod | minos/argus/argus.go:427-446 | Ends a run whose pod succeeded |
| ArgusDaemon.Argus.MarkPodFailed | minos/argus/argus.go:449-463 | Ends a run whose pod failed |
| ArgusDaemon.Argus.TerminatePod | minos/argus/argus.go:480-500 | Ends a run over its cap or stalled |
| ArgusDaemon.Argus.WarnThread | minos/argus/argus.go:466-470 | One warning, flagged and persisted |
| ArgusDaemon.Argus.EscalateThread | minos/argus/argus.go:473-477 | One escalation, flagged and persisted |
| ArgusDaemon.Argus.TickOnce | minos/argus/argus.go:296-316 | discover then evaluate computes one tick |
| MinosServer.Minos.LaunchRun | minos/core/commission.go:208-276 | dispatch: with a buildable spec and a pod to be had the row runs under that pod and run from now on, otherwise it fails; nothing else changes |
| MinosServer.Minos.CommissionTask | minos/core/commission.go:51-202 | A new row, field by field, running under its pod or failed; a known id changes nothing |
| MinosServer.Minos.RespawnTask | minos/core/commission.go:288-331 | Only a task awaiting review is dispatched again |
| MinosServer.Minos.HandleReview | minos/core/api.go:567-690 | A qualifying review or mention makes the row of its pull request run, or fail for want of a pod, exactly if it awaits review |
| MinosServer.Minos.HandleClosed | minos/core/api.go:471-530 | A closed pull request completes its row if merged and fails it if not, once |
| MinosServer.Minos.ReconcileAll | minos/core/reconcile.go:30-98 | From the rows and the pods alone: a running row without a pod name, or whose pod is missing, failed or of unknown phase, fails; one whose pod succeeded awaits review; every other stays |
| MinosServer.Minos.SweepHibernation | minos/core/hibernate.go:18-96 | Row by row: failed past the abandon age, marked past the reminder age, else untouched; the notices go to exactly the rows that failed and were marked, each once |
| PullRing.PullConsumer.Push | hermes/core/pull.go:54-69 | The ring stays the tail of the log of accepted messages, numbered from 1; a filtered message gets 0 |
| PullRing.PullConsumer.CollectLocked | hermes/core/pull.go:124-136 | Of the surviving events the first past the cursor, in order, at most max, fewer only if there are no more |
| PullRing.PullConsumer.Next | hermes/core/pull.go:74-120 | One read, 32 events unless told otherwise |
| Poller.Run | agents/iris/internal/iris/poller.go:34-101 | The cursor after any answers, failures and instance changes, and the events handed on |
| Poller.CursorRules | agents/iris/internal/iris/poller.go:72-100 | A batch moves the cursor to the highest number seen, from 0 after a change of instance; failures leave it; the last named instance is remembered |
| Poller.RingRefinesLog | hermes/core/pull.go:54-136 | For any interleaving of pushes and reads: strictly increasing, true to the log, and a passed number is missing exactly if it was evicted ahead of the cursor |
| Poller.NothingLostIffKeepsUp | hermes/core/pull.go:63-66 | Nothing is lost if and only if the backlog never exceeds the capacity |
| Poller.KeepingUpDeliversPrefix | hermes/core/pull.go:54-136 | Then the deliveries are a prefix of the full log |
| Poller.EmptyReadMeansCaughtUp | hermes/core/pull.go:124-136 | A read is empty exactly when everything accepted has been passed |
| Poller.LoopFollowsFeed | agents/iris/internal/iris/poller.go:49-100 | Over one instance the cursor loop keeps exactly the cursor, and hands on exactly the deliveries, of the ring's runs |
| Poller.FirstReadAfterRestart | agents/iris/internal/iris/poller.go:72-84 | The cursor starts over exactly if the first answer of the new instance is empty |
| Poller.RestartAccountedFor | agents/iris/internal/iris/poller.go:72-100 | From then on deliveries of the new instance are increasing, true to its log and missing only what was evicted ahead of the cursor, if and only if the first answer was empty or all it left out had been evicted |
| Poller.RestartHides | agents/iris/internal/iris/poller.go:72-100 | Otherwise the messages the old cursor covers are never delivered |
| Iris.ConversationStore.AppendTurn | agents/iris/internal/iris/conversation.go:103-120 | One more turn, unless the write did not land |
| Iris.ConversationStore.AlreadyHandled | agents/iris/internal/iris/conversation.go:125-136 | Whether the conversation has a turn with this number |
| Iris.Handler.Handle | agents/iris/internal/iris/handler.go:42-107 | Handling one message under any failures |
| Iris.HandleRules | agents/iris/internal/iris/handler.go:42-107 | Told by the conversation alone: when nothing happens, which turns are written with which text, when the loop starts, and where the reply goes |
| Iris.EmptyMeans | agents/iris/internal/iris/handler.go:42-107 | A message says nothing exactly if it is blank or a mention with blanks after it |
| Iris.LoopStartsOncePerMessage | agents/iris/internal/iris/handler.go:42-107 | From any stored conversations, over any number of pods in one broker instance, the tool loop starts at most once per message, only for messages with content |
| Iris.SkippedIffTakenUpBefore | agents/iris/internal/iris/conversation.go:125-136 | A message is passed over exactly if its own turn was written in this instance, or its number was in its conversation at the start |
| Iris.DroppedIffNumberRecorded | agents/iris/internal/iris/handler.go:48-54 | A complete message is dropped without a trace exactly if its conversation has its number |
| ToolLoop.RunLoop | agents/iris/internal/iris/handler.go:111-173 | Ends within its bound; replies exactly when a round stops asking after rounds that went well |
| ToolLoop.ReplyRules | agents/iris/internal/iris/handler.go:111-173 | Which reply stopping in a round means, and the bound of six rounds unless configured |
| ToolLoop.UsesInOrder | agents/iris/internal/iris/handler.go:139-170 | The requests of a message are all its tool requests, in order |
| ToolLoop.EveryToolUseIsAnswered | agents/iris/internal/iris/handler.go:139-170 | Each request of a round is answered once, same id, same order, in the next message |
| ToolLoop.EveryBlockIsAnswered | agents/iris/internal/iris/handler.go:139-170 | Block by block, whatever the model asked for is answered with its id and output at its place among the requests, and nothing else is |
| ToolLoop.ReplyIsNeverSilence | agents/iris/internal/iris/handler.go:130-137 | A reply is trimmed and not empty |
| Identities.FilterOut | minos/identity/memstore/memstore.go:248-256 | In place, the front of the array holds the other elements in order |
| Identities.WithoutIsFilter | minos/identity/memstore/memstore.go:248-256 | What is kept is everything else, as often as before |
| Identities.Store.InsertIdentity | minos/identity/memstore/memstore.go:58-77 | A new row unless the contact has one |
| Identities.Store.ChangeRole | minos/identity/memstore/memstore.go:79-99 | The role change and its refusals |
| Identities.Store.RevokeIdentity | minos/identity/memstore/memstore.go:101-119 | The revocation and its refusals |
| Identities.Store.GrantCapability | minos/identity/memstore/memstore.go:121-139 | An addition that cancels a removal |
| Identities.Store.TakeCapability | minos/identity/memstore/memstore.go:141-157 | The capability is gone, no other changes, of this identity or another |
| Identities.Store.CountActiveAdmins | minos/identity/memstore/memstore.go:159-176 | The number of active admins |
| Identities.Store.CreatePairing | minos/identity/memstore/memstore.go:178-192 | A pending request unless the contact has one, expired or not |
| Identities.Store.SweepPairings | minos/identity/memstore/memstore.go:215-227 | Drops exactly the expired requests |
| Administration.Chat.HandleInbound | minos/core/intake.go:94-170 | The registry after a message and what else it sets off, as the laws of ChatLaws.dfy say it |
| Administration.Chat.HandleMinosCommand | minos/core/pairing.go:99-134 | Subcommands behind their capability |
| Administration.Chat.HandleApprove | minos/core/pairing.go:137-186 | One new active row for the contact of a live request, in the role written or as a commissioner, and the request gone; otherwise nothing |
| Administration.Chat.Bootstrap | minos/core/bootstrap.go:20-66 | What is registered stays; a contact named and not registered becomes an active admin or system identity; nobody else does |
| ChatLaws.ApproveObeys | minos/core/pairing.go:137-186 | `/minos approve` by an approver admits exactly the contact of a live request in the role written, and any other use changes nothing |
| ChatLaws.RevokeObeys | minos/core/pairing.go:190-217 | `/minos revoke` by a manager revokes the contact unless it is the last admin; any other use changes nothing |
| ChatLaws.GrantObeys | minos/core/pairing.go:220-244 | `/minos grant` by a manager gives the contact the capability and changes no other |
| ChatLaws.RoleObeys | minos/core/pairing.go:247-286 | `/minos role` by a manager sets the role unless the last admin would go or the role is not one to give |
| ChatLaws.PairObeys | minos/core/pairing.go:33-60 | `/pair` files a request for a day unless the sender is active or has one; messages that are no commands change nothing |
| ChatLaws.ActionObeys | minos/core/intake.go:94-170 | Who gets a status, who is refused, and that chatter sets off nothing |
| ChatLaws.CommissionObeys | minos/core/intake.go:127-170 | A written commission is taken up with its fields, complained about, or refused for want of the capability |
| ChatLaws.RoleMeaning | pkg/identity/capability.go:70-90 | What each role may do |
| ChatCommands.AskedIsCovered | minos/core/pairing.go:99-286 | What a message gets done is covered by a capability of its sender and never makes a system identity |
| ChatCommands.ActionIsCovered | minos/core/intake.go:120-163 | Status and commissions need their capabilities |
| ChatCommands.InactiveIsPowerless | pkg/identity/identity.go:49-52 | A contact without an active identity can at most ask to be paired |
| Governance.NeverLockedOut | minos/core/bootstrap.go:20-66 | From a first bootstrap with an admin, after any chat, sweeps and restarts: an active admin with identity.manage, one identity per contact, revoked stays revoked |
| Governance.ChatMakesNoSystemIdentity | minos/core/pairing.go:137-262 | No run of chat makes a system identity |
| Governance.RevokedForGood | minos/identity/memstore/memstore.go:101-119 | A revoked contact never has an active identity again and changes none |
| Governance.OnlyTheEntitledChangeIdentities | minos/core/pairing.go:99-134 | Identities change only at the hand of a manager, and appear only at the hand of an approver |
| Governance.RemovalMayLockOut | minos/identity/memstore/memstore.go:141-157 | RemoveCapability leaves a manager exactly if there is another one |
| Governance.ExpiredRequestLocksOut | minos/identity/memstore/memstore.go:178-206 | After any messages, sweeps and restarts an expired request still keeps its contact out if and only if there was no sweep and no restart that names the contact |
| Governance.SweepFrees | minos/identity/memstore/memstore.go:215-227 | A sweep lets the contact ask again |
| Governance.SeedTakes | minos/core/bootstrap.go:20-66 | A bootstrap gives an identity to exactly the contacts it names and those that have one |
| Governance.StuckPairingIsReached | minos/core/pairing.go:33-60 | One message after a first bootstrap leads there |
| CommissionParser.ParseCommissionCommand | minos/core/intake.go:33-86 | The loop, which every match shortens, computes the parse |
| CommissionParser.OnlyCommandsParse | minos/core/intake.go:33-42 | A text is no command exactly if it does not begin with the word once trimmed |
| CommissionParser.RoundTrip | minos/core/intake.go:23-86 | For any tokens, a printed command whose summary does not begin with a token is read back as its fields or as the complaint about a missing one; with repo and branch given, only such a command is |
| CommissionParser.ThreeFieldsRoundTrip | minos/core/intake.go:42-60 | Repo, branch and base come back in any order |
| CommissionParser.Lex | minos/core/intake.go:19-23 | Every match strictly shortens the rest |
| WebhookReplay.MemStore.Seen | cerberus/core/replay/replay.go:40-61 | Whether the key was recorded within the window, and its recording now if not |
| WebhookReplay.Verifier.Verify | cerberus/verification/slack/slack.go:94-150 | Accepted exactly if both headers are there, the timestamp is a number within the window, the signature is right and the delivery not remembered; each refusal names the first condition missing |
| WebhookReplay.ParseIntReadsDecimal | cerberus/verification/slack/slack.go:106-109 | Numbers of 64 bits are read from their decimal digits, others refused |
| WebhookReplay.ParseIntRefuses | cerberus/verification/slack/slack.go:106-109 | Anything but an optional sign and digits is refused |
| WebhookReplay.OnceEverIffWindowCovers | cerberus/verification/slack/slack.go:113-141 | At most one acceptance ever, if and only if the window is disabled or at least twice the skew |
| WebhookReplay.AcceptedOnce | cerberus/core/replay/replay.go:40-61 | The same for every start of the store and any other users of it |
| BrokerAuth.MemReplayStore.Seen | pkg/brokerauth/memreplay.go:27-41 | Keeps what has not expired, tells whether the token is among it, and records it if not |
| BrokerAuth.Verifier.Require | pkg/brokerauth/brokerauth.go:86-132 | Let through exactly if the header carries a bearer, its signature is right, it is not expired, it is addressed to the broker, it is good for the operation and it is not remembered; each refusal names the first condition missing |
| BrokerAuth.AllowedAtMostOnce | pkg/brokerauth/brokerauth.go:106-128 | Over any sequence of requests a token with a jti is let through at most once if and only if no request after its first use passes the other checks and straddles its expiry |
| BrokerAuth.StraddledTokenUsedTwice | pkg/brokerauth/memreplay.go:27-41 | Two requests that use one token twice |
| BrokerAuth.LetThroughAgainIffStraddled | pkg/brokerauth/memreplay.go:27-41 | A used token is let through again exactly by a request that straddles the expiry |
| BrokerAuth.TokenMeaning | pkg/brokerauth/brokerauth.go:101-115 | Composed, signed and read back, a token is allowed an operation exactly when the project grants it |
| BrokerAuth.ComposeAndRequire | minos/core/commission.go:336-386 | The three operations called one after the other decide just that |
| Tokens.ComposeCapabilities | minos/core/commission.go:336-386 | Audience and scopes say exactly what the project grants |
| Tokens.MapToClaims | pkg/jwt/bearer.go:59-100 | Reads the body, with anything missing or of another type at its zero value |
| Tokens.EncodeDecode | pkg/jwt/bearer.go:19-100 | What is read back from what was signed |
| Tokens.SameAnswers | pkg/jwt/jwt.go:36-61 | Reading back changes no answer about audience or scope |
| Sanitizer.Sanitize | mnemosyne/core/sanitize.go:42-61 | The known values in turn, then the eight shapes in turn: from left to right the marker stands for the longest secret at each place, whole, and everything else is kept |
| Sanitizer.FitMatches | mnemosyne/core/sanitize.go:12-29 | What the matcher finds is of the shape |
| Sanitizer.FitFinds | mnemosyne/core/sanitize.go:12-29 | The matcher misses no text of the shape |
| Sanitizer.PatternsLongest | mnemosyne/core/sanitize.go:12-29 | For each of the eight shapes the match is the longest text of the shape at its place |
| Sanitizer.ReplaceRedacts | mnemosyne/core/sanitize.go:50-60 | Replacing computes leftmost-longest redaction, said without the matcher |
| Sanitizer.RedactsOneWay | mnemosyne/core/sanitize.go:50-60 | Of which there is only one result |
| Sanitizer.PassBringsNothing | mnemosyne/core/sanitize.go:50-60 | No pass brings about a text that is apart from markers |
| Sanitizer.PassCleans | mnemosyne/core/sanitize.go:50-60 | A pass takes out everything it is there for |
| Redaction.KnownValueGone | mnemosyne/core/sanitize.go:50-60 | A known value of four bytes or more that is apart from markers never occurs in the output, through all later passes |
| Redaction.CredentialsGone | mnemosyne/core/sanitize.go:12-29 | Nor does any text of one of the eight credential shapes |
| Redaction.WhichValuesVanish | mnemosyne/core/sanitize.go:33-56 | Exactly which known values are sure to vanish, whatever their characters |
| Redaction.Idempotent | mnemosyne/core/sanitize.go:42-61 | With known values apart from markers a second pass changes nothing |
| Redaction.WhichPlainValuesVanish | mnemosyne/core/sanitize.go:33-56 | For values without angle brackets or credentials: exactly those of four bytes or more that are no part of the word in the marker |

## Left out

- Postgres stores, SQL, HTTP routes, status codes, JSON shapes of requests, audit text and thread messages: plumbing
  around the steps modelled here.
- Cryptography: a signature is taken as right or wrong, and the Slack body hash as a string of its printed length.
- Verifiers without a secret or a replay store, and tokens without an expiry, which Sign never makes.
- Kubernetes objects, pod specs, namespaces, Vault, GitHub, Discord and Anthropic clients: their outcomes are
  parameters (a pod spec that cannot be built, a refused spawn, a failed call).
- Concurrency inside an operation: operations are atomic, so two respawns of one task at once, or requests to one broker
  that overlap, are not part of the model; neither is the wait of a long poll before its read.
- Persister failures and Argus without a persister; crashes fall between operations.
- ArgusDaemon.Argus.TrackTask: not a step of the runs, because nothing in the extracted Argus calls it and it records
  the present instant rather than the task's start.
- Rows of the task store and the registry are values: the source hands out and takes in clones, so only the maps are
  changed in place.
- time.Sub saturation at 292 years, and times in Unix seconds beyond 64-bit nanoseconds.
- PullRing.PullConsumer.Push: sequence numbers do not wrap at 64 bits.
- Delivery across broker instances is stated for one restart at a time, and for repeated numbers in a conversation.
- Iris.Handler.Handle: the reply of the tool loop is an outcome given to it; ToolLoop.RunLoop shows what it can be. The
  mention prefix folds ASCII letters only.
- Identity timestamps, pairing notes and the random pairing token (a parameter).
- Tokens.EncodeDecode: nil and empty scope lists are not told apart, which the composer never needs, and other members
  of the body are ignored.
- Sanitizer.Sanitize: whether the output is valid UTF-8 or still valid JSON is not stated.
- collectKnownSecrets in minos/core/api.go, health monitors, providers, slugs and the project registry: they would only
  add easy members.
