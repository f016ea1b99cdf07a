# ciacola's durable turn protocol, modelled and proved

ciacola runs paid agent turns out of a SQLite ledger. Any number of server
processes share one database; each admits turns, dispatches them, kills them,
drains, crashes and restarts, while detached writers land late usage reports.
The correctness of the whole rests on a few conditional `UPDATE`s, one guarded
`INSERT`, an in-flight counter, a kill map and a frozen protection snapshot.

This project models that system and proves what it keeps over every run.

* **Tables.** `Rows`, `Database`, `Limits`, `Capability`, `Telemetry`,
  `Admission` hold the two tables, every statement as a function from tables to
  tables, and the admission arithmetic.
* **What they mean.** `Columns` tells every statement, `Window` the rolling day
  and `Verdict` every report and decision from the columns, the limits and the
  linked backends alone, apart from the functions that compute them.
* **The interleaving system.** `Protocol` makes each statement or transaction,
  each process-local action and each poll of a dispatch task one atomic step.
  Deliveries may be duplicated without bound, processes boot and crash at any
  point, and any step may fall between any two others. A history (claims,
  launches, the names providers gave and what became of them, emitted snapshots,
  kills) is kept that no step reads.
* **Whole-run theorems.** `Kept`, `Claims`, `Kills`, `KillSafety`, `Drain`,
  `Confluence`, `Progress`, `Completion`, `Restart`, `Told`, `Sessions`, `Alone`,
  `Rotation`, `Frozen`, `Steps`, `Money`, `Overshoot`, `FailClosed`, `FencedRuns`.
  `Walks` holds stretches of runs from which `CrossKill` and `Reopen` build
  concrete ones.
* **The imperative code.** `Store.Ledger`, `Executor.Runner` (what both executors
  share), `Executor.HandExecutor`, `Executor.PollingExecutor`, `Recoverer` and
  `ClaudeStream.StreamObservations` update their fields in place, and their
  methods are proved against the same table functions and the same process
  functions the steps are made of.
* **Beside it.** `Fence` (older binaries writing the same file),
  `ClaudeTurn` (from a provider stream to the settled row) and `ToolGrant`.

## Assumptions

* The clock never goes back; a settlement and a claim read it once.
* A new session id is fresh, and a backend never answers with an id this system
  chose for another conversation.
* There are no SQL errors other than a crash.
* A run starts from a ledger that satisfies the invariant (an empty one does).
* `limits.validate()` passed for every server.
* The source of a supervised submission is not blank: the two callers there are
  pass the constants `send_supervised` and `resend_supervised`.
* The operator's kill records before it signals, as the tool handler does.
* One poll of a dispatch task looks at its kill token and then advances. The
  model takes the load and the provider call as separate polls, which allows
  every run in which they share one.

## Where the code and its promises part

Two promises do not hold as stated. The code is modelled as it is; each has a
concrete run that breaks it, the exact condition, and a condition on the states
under which it holds.

* *A completed kill means no later launch.* True of the process that holds the
  delivery (`KillSafety.KillStopsItsOwnProcess`). A kill issued through another
  server records, finds no token to signal, and the delivery that had already
  passed its durable recheck goes on to launch (`CrossKill.CompletedKillCanMiss`).
  `KillSafety.KillIsFinalIff` says exactly when.
* *A confirmed conversation is never opened again.* There are two ways it is.
  Between recording a kill and signalling it the agent is free for its next turn;
  if that turn loads the agent row before the killed provider confirms its
  session, it opens the same id, with instructions
  (`Reopen.ConfirmedConversationCanBeReopened`). And an answer whose settlement
  is refused, or that a crash loses, never reaches the agent row, so that a turn
  however much later opens the id it named (`Reopen.RefusedAnswerIsReopened`).
  `Sessions.ConfirmedConversationsAreNotReopened` shows that these are the only
  two, counting every name a provider gave in any event or outcome, heard or not.
  `Alone.OnItsOwnNothingIsReopened` gives the condition a caller can check: if
  from load to call no other live delivery of the agent is past its claim, and no
  earlier answer of the agent was refused or lost, nothing is opened twice.
  `Alone.OnItsOwnIff` puts the first half in terms of the ledger: no turn that is
  already settled still has a live delivery.

## Model

| member | source | states |
|---|---|---|
| Kept.RunKeepsDb | crates/ciacola-core/src/admission.rs:70-79 | every reachable ledger numbers each agent's turns 1..k, has at most the last in flight, none of a retired agent, each roll-up equal to the clamped exact spend, and never rewrites what a settled turn recorded |
| Database.SingleFlight | crates/ciacola-core/src/admission.rs:66-79 | the seqs of an agent are exactly 1..max and any turn in flight is the last one, of an agent that is not retired |
| Database.SettleAndBank | crates/ciacola-core/src/ledger.rs:1273-1323 | settling a turn and banking the same amount keeps every agent's roll-up equal to its clamped exact spend |
| Database.InsertKeeps | crates/ciacola-core/src/admission.rs:70-79 | the guarded insert extends the numbering by one fresh key, keeps single flight, and changes nothing else |
| Claims.AtMostOneLaunch | crates/ciacola-core/src/ledger.rs:1046-1064 | in every run mixing duplicate deliveries, executors, processes, recoveries, kills and crashes, no turn's provider is called twice |
| Claims.OnlyClaimStepsClaim | crates/ciacola-core/src/exec.rs:139-147 | a claim is only ever added by the delivery whose conditional update found the turn queued |
| Kills.RunKeepsProtocol | crates/ciacola-core/src/exec.rs:538-560 | the kill map lists exactly the registered deliveries, every signal follows a record, and after both halves a delivery of that process past its recheck is signalled |
| KillSafety.KillStopsItsOwnProcess | crates/ciacola-core/src/exec.rs:563-609 | after record and signal through a process, no later step of that process launches the turn, wherever the kill fell |
| KillSafety.SettledTurnLaunchesIff | crates/ciacola-core/src/exec.rs:632-644 | a settled turn can still be launched in some run if and only if an unsignalled live delivery is past its recheck with a protection its provider honours |
| KillSafety.KillIsFinalIff | crates/ciacola-core/src/exec.rs:40-44 | after a completed kill the turn can still be launched if and only if a process other than the killer's holds such a delivery |
| KillSafety.ReachableWasReachable | crates/ciacola-core/src/ledger.rs:841-863 | once an agent has a turn, no check of a definition lets it move to another backend, though a check made before may still land |
| CrossKill.CompletedKillCanMiss | crates/ciacola-core/src/server.rs:775-783 | a concrete run of two servers, both recovered and open, in which a completed kill is followed by a launch |
| Drain.RunKeepsDrain | crates/ciacola-core/src/exec.rs:117-135 | the in-flight count always equals the number of live guards, and nothing is past the channel before the gate |
| Drain.ClaimsNeedAnOpenGate | crates/ciacola-core/src/exec.rs:60-104 | a claim is only ever attempted by a process whose gate opened and whose drain has not finished |
| Drain.ClosedNeverClaims | crates/ciacola-core/src/exec.rs:759-771 | once drain raised the flag and read zero, or came before the gate, that executor wins no claim in any continuation |
| Drain.ClosedNeverLaunches | crates/ciacola-core/src/exec.rs:684-696 | nor does it call a provider: nothing it claimed is left |
| Drain.DrainCloses | crates/ciacola-core/src/polling.rs:200-213 | in every reachable state a draining executor is closed as soon as it reads zero in flight |
| Drain.DrainStopsClaims | crates/ciacola-core/src/exec.rs:117-135 | after a drain has begun, in any continuation, its executor claims only for deliveries that had read the flag before |
| Confluence.KilledRowHoldsTheLastSnapshot | crates/ciacola-core/src/ledger.rs:728-757 | for every interleaving of the kill with the ordered drain, the killed row ends with exactly the last snapshot emitted, reported and incomplete, and with no usage when none was |
| Confluence.KilledQueuedStaysZero | crates/ciacola-core/src/ledger.rs:1066-1082 | a turn killed while queued stays a complete known zero, whatever is written later |
| Confluence.RunKeepsUsage | crates/ciacola-core/src/exec.rs:249-288 | at every moment a running or killed row holds the last snapshot its writer wrote, and each writer belongs to the delivery that claimed the turn |
| Progress.RunKeepsProgress | crates/ciacola-core/src/exec.rs:149-152 | while its process lives a running turn has a live delivery, and every queued turn an executor was handed, by admission or recovery, a pending one |
| Progress.PendingPersists | crates/ciacola-core/src/exec.rs:684-731 | a pending delivery stays pending through any run in whose last state its turn is queued and its process serves |
| Completion.NoTurnIsLost | crates/ciacola-core/src/exec.rs:149-221 | from every reachable state such a turn can be settled by the steps of its own delivery and writer alone |
| Completion.OwnStepsAdvance | crates/ciacola-core/src/exec.rs:153-221 | apart from what the provider streams, every step of a delivery moves it strictly forward or ends it |
| Completion.BoundEndsSettled | crates/ciacola-core/src/exec.rs:149-152 | a delivery that claimed its turn ends only with the turn settled |
| Completion.PollingFindsEveryQueuedTurn | crates/ciacola-core/src/polling.rs:103-163 | a polling executor can pick up any queued turn, and finish it |
| Restart.RecoveryIsComplete | crates/ciacola-core/src/recover.rs:95-163 | in whatever order the rows come, recovery leaves no running row, touches no other row and no agent, and a second pass finds nothing |
| Restart.RestartLosesNothing | crates/ciacola-core/src/recover.rs:97-163 | with any other steps between recovery's own, what was running is settled, what was settled untouched, what runs was claimed since and is tended, and every queued turn has been handed to this process or the one that admitted it since |
| Restart.RecoveredIsSettled | crates/ciacola-core/src/recover.rs:103-155 | a row the first loop read is settled at the end of the run whatever falls around its statement |
| Restart.RecoveryCanRun | crates/ciacola-core/src/recover.rs:97-163 | behind a closed gate the two loops can always run to their end, and uninterrupted they leave no running row |
| Restart.RestartedTurnsFinish | crates/ciacola-core/src/recover.rs:157-160 | in any later state in which the process dispatches, a resubmitted turn that is still queued can be finished |
| Told.StepKeepsTold | crates/ciacola-core/src/exec.rs:176-221 | every name a provider gave was recorded, refused or lost, or is in an answer that has yet to settle |
| Sessions.RunKeepsSessions | crates/ciacola-core/src/ledger.rs:675-726 | a positive session origin names a turn that confirmed exactly that id, zero means chosen here and confirmed by nobody, and every load, plan and launch agrees with what was confirmed when it was read |
| Sessions.ConfirmedConversationsAreNotReopened | crates/ciacola-core/src/exec.rs:476-533 | a launch resumes only confirmed ids, and opens one some provider had named if and only if another turn of the agent confirmed it between load and launch or an answer naming it was refused, lost or unsettled |
| Alone.OnItsOwnNothingIsReopened | crates/ciacola-core/src/agent.rs:500-517 | if from a turn's load to its call no other live delivery of its agent is past its claim and no earlier answer was refused or lost, the id it opens was never named by any provider |
| Alone.OnItsOwnIff | crates/ciacola-core/src/exec.rs:563-570 | while its turn runs, a delivery is on its own if and only if no settled turn of the agent still has a live delivery |
| Alone.OverlapMeansOneIsSettled | crates/ciacola-core/src/exec.rs:563-570 | two deliveries past their claims for one agent mean that one of the turns is already settled |
| Reopen.ConfirmedConversationCanBeReopened | crates/ciacola-core/src/agent.rs:500-517 | a concrete run of one server in which an id confirmed between load and launch is opened again with instructions |
| Reopen.RefusedAnswerIsReopened | crates/ciacola-core/src/ledger.rs:1214-1217 | a concrete run of one server in which an id named by a refused answer is opened again by a turn admitted afterwards |
| Rotation.LoadOutcome | crates/ciacola-core/src/exec.rs:412-533 | a claimed turn loads if and only if its tools can be scoped and its protection is one admission built that the linked backend still honours; it keeps the stored conversation exactly while there is no policy, it was never opened, or it began at most that many turns ago |
| Rotation.RotationOpensTheNewName | crates/ciacola-core/src/exec.rs:509-524 | a turn that must rotate points its agent at the new name, not yet opened, opens that, and changes nothing else |
| Rotation.RotationIsObeyed | crates/ciacola-core/src/exec.rs:476-533 | every launch of every run continues its agent's conversation exactly while the policy it read lets it, so that one resumed under a policy of n turns was begun by one of the last n |
| Executor.Runner.Load | crates/ciacola-core/src/exec.rs:412-533 | the plan and the agent row after loading: the stored conversation and an untouched row while the policy lets it, and otherwise the new name in both |
| Frozen.EveryLaunchIsFrozen | crates/ciacola-core/src/exec.rs:436-474 | every launch carries exactly the ceiling, capability and provider its row was stored with and the live capability equals it; legacy and malformed rows are never launched |
| Frozen.AdmittedPolicyReachesTheProvider | crates/ciacola-core/src/admission.rs:173-228 | however much later and in whichever process, a launch carries the policy in force when its turn was admitted |
| Limits.ExecutionAcceptsOnlyWhatAdmissionBuilds | crates/ciacola-core/src/limits.rs:575-671 | execution accepts precisely the snapshots a constructor built, under the state, provider and capability they were built for |
| Admission.AdmittedTurnRunsIff | crates/ciacola-core/src/limits.rs:577-671 | an admitted turn runs under the ceiling it was admitted with, and at all if and only if the live capability is the frozen one and an exception's source is not blank |
| Admission.SuppliedTurnRunsIff | crates/ciacola-core/src/server.rs:534-548 | for the sources the code passes, an admitted turn runs if and only if no ceiling was configured or the live capability is the frozen one |
| Admission.BlankSourceWouldNeverRun | crates/ciacola-core/src/limits.rs:577-671 | why the assumption is needed: an exception admitted with a blank source would be refused by every execution |
| Admission.AdmissionFreezesPolicy | crates/ciacola-core/src/admission.rs:173-294 | whatever is admitted carries the configured ceiling and the capability of that moment |
| Admission.ReportAndDecisionAgree | crates/ciacola-core/src/admission.rs:82-100 | at one ledger and time automatic work for an idle agent is admitted if and only if the report says it is allowed, whichever order either query returned its rows in |
| Verdict.DecisionIsTheVerdict | crates/ciacola-core/src/admission.rs:102-306 | every decision for any agent, ledger, authority and row order: which refusal is given and with which figures, or the audit, ceiling, prompt and untouched columns of the row inserted |
| Verdict.AutomaticTurnIsAdmittedIff | crates/ciacola-core/src/limits.rs:352-433 | automatic work is admitted if and only if the agent is active, idle and linked, no stop is reached by the exact day, no configured stop is blinded by a turn of unknown cost or tokens, money or a token stop meters the backend, and a configured ceiling can be enforced |
| Verdict.ReportIsTheDays | crates/ciacola-core/src/limits.rs:352-449 | the report lists exactly the linked, used and seen providers, and every state, warning, permission, total and gap count in it follows from the turns of the day |
| Verdict.SupervisedStopsOnlyAtKnownStops | crates/ciacola-core/src/admission.rs:159-275 | a supervisor with a reason is refused an idle agent of a linked backend if and only if a known USD or token stop is reached, and the arm for an unmatched stop is dead |
| Verdict.AdmittedBelowStop | crates/ciacola-core/src/admission.rs:159-167 | whoever asks, a turn is admitted only while what `spend_since` finds in the rolling day is below the stop |
| Verdict.GapBlocksAutomaticWork | crates/ciacola-core/src/limits.rs:379-402 | one turn of the day with unknown cost refuses automatic work to every agent under a USD stop, and one with unknown tokens to every agent of its provider under a token stop |
| Window.AccountingIsTheDays | crates/ciacola-core/src/admission.rs:343-526 | the query and the fold together: the accounting of any row order is that of the turns settled within the day or running, each counted for the provider it names, and is refused if and only if a counted column is negative |
| Overshoot.OvershootIsBounded | crates/ciacola-core/src/admission.rs:147-167 | in every state of every run, rolling spend plus c for each turn in flight is at most stop - 1 + n * c |
| Overshoot.EmptyLedgerIsBounded | crates/ciacola-core/src/admission.rs:147-167 | a ledger that starts without turns satisfies the bound's premise |
| Window.SpendIsTheDays | crates/ciacola-core/src/admission.rs:481-526 | what admission adds up is exactly what `spend_since` returns for the rolling day |
| Overshoot.RoomForOneMore | crates/ciacola-core/src/admission.rs:70-79 | an idle active agent means fewer turns in flight than active agents |
| FailClosed.UnknownBlocksTheWholeDay | crates/ciacola-core/src/limits.rs:373-402 | a turn settled with its cost or its tokens unknown stays so whatever is written later, and refuses every automatic admission under the stop it blinds in every continuation until it leaves the window |
| FailClosed.InterruptionKnowsItsCostIff | crates/ciacola-core/src/ledger.rs:593-615 | a kill or recovery leaves the cost known if and only if the turn was still queued, or its agent's linked backend reports no cost and the backend it was admitted for prices nothing |
| FailClosed.SettlementKnowsItsCostIff | crates/ciacola-core/src/ledger.rs:1218-1282 | an exchange leaves the cost known if and only if it reported the whole of it or its backend prices nothing |
| FailClosed.AbortKnowsItsCost | crates/ciacola-core/src/ledger.rs:1181-1209 | a dispatch refused before its provider call leaves no gap |
| Telemetry.AccountingFromRows | crates/ciacola-core/src/admission.rs:343-421 | the loop over the window returns the fold of its rows, or refuses |
| Telemetry.AccountingIgnoresOrder | crates/ciacola-core/src/admission.rs:343-429 | any two orders of the same rows give the same accounting and refuse the same ledgers |
| Telemetry.RefusedIffUnsafe | crates/ciacola-core/src/admission.rs:549-552 | accounting is refused if and only if a settled row's reported or legacy cost, or a reported or legacy token bucket, is negative |
| Telemetry.SpendIsExactSaturated | crates/ciacola-core/src/admission.rs:356-372 | the saturating spend is the exact sum of reported costs, clamped once |
| Telemetry.TokensAreExactSaturated | crates/ciacola-core/src/limits.rs:235-237 | a provider's token total is its exact measured sum, clamped once |
| Telemetry.CostCountersReadTheColumns | crates/ciacola-core/src/admission.rs:353-380 | every cost counter is the number of that provider's attempted terminal rows with that cost state, reported ones split by completeness |
| Telemetry.UsageCountersReadTheColumns | crates/ciacola-core/src/admission.rs:394-421 | every usage counter is the number of that provider's rows whose state, attempt, usage state, completeness and tokens are as the match says |
| Telemetry.UsageGapsAreCounted | crates/ciacola-core/src/limits.rs:239-244 | a provider's usage-gap count is the saturated number of its attempted rows that are unreported, not tracked, incomplete, or a zero from before usage was told apart |
| Telemetry.SaturationIsHarmless | crates/ciacola-core/src/ledger.rs:255-257 | with each report clamped to the ledger's integer, the stop is reached if and only if the unbounded exact sum of the reports reaches it |
| Telemetry.TokenStopIsHarmless | crates/ciacola-core/src/limits.rs:184-195 | with every bucket of every report clamped, a provider's total reaches a token stop if and only if the unbounded exact sum of its reports does |
| Telemetry.GapsAreCounted | crates/ciacola-core/src/limits.rs:246-272 | the report's gap count is the saturated number of attempted rows, of any provider, that leave their cost unknown |
| Telemetry.GapsAreSeen | crates/ciacola-core/src/limits.rs:246-272 | the report's gap count is positive if and only if some attempted row of some provider leaves its cost unknown |
| Limits.CountCostGaps | crates/ciacola-core/src/limits.rs:266-272 | the saturating fold over providers is the clamped exact sum, whatever the order |
| Limits.ResolveTurnProtection | crates/ciacola-core/src/admission.rs:431-463 | the in-place loop resolves every status by the live capability and leaves the rest |
| Money.MoneyIsConserved | crates/ciacola-core/src/ledger.rs:928-970 | in every reachable ledger the loop over all agents and the loop over all turns settled since a cutoff no later than any settlement return the same money, retired agents included |
| Money.SaturatingIsClampedSum | crates/ciacola-core/src/ledger.rs:944-949 | a loop of saturating additions is the exact sum clamped once |
| Capability.GateIsExact | crates/ciacola-agent/src/capability.rs:140-180 | the last gate refuses a turn if and only if the provider would drop one of its boundaries or its ceiling |
| Capability.NothingIsDroppedIff | crates/ciacola-agent/src/capability.rs:305-415 | no entry is made if and only if every boundary, the ceiling, the chosen name, the turn bound and the effort can be honoured |
| Capability.Validate | crates/ciacola-agent/src/capability.rs:305-415 | the list holds an entry exactly for each constraint asked for and unmet, in declaration order |
| Capability.Blocking | crates/ciacola-agent/src/capability.rs:208-213 | the first entry that must stop the turn, and none only when no entry must |
| Store.Ledger.ClaimTurn | crates/ciacola-core/src/ledger.rs:1052-1064 | true exactly when the row was queued, and then the row runs with its claim time and version |
| Columns.ClaimColumns | crates/ciacola-core/src/ledger.rs:1052-1064 | a claim starts a queued turn with its time and version and changes nothing else |
| Columns.InterruptionColumns | crates/ciacola-core/src/ledger.rs:1111-1179 | a running turn ends with its cost and tokens lost, or not priced and not tracked exactly when its linked backend says so, keeps what was streamed, and is timed by its claim; a queued one ends as never run under a kill and is left alone by recovery |
| Columns.AbortColumns | crates/ciacola-core/src/ledger.rs:1187-1209 | only a running turn ends, failed and as one that never ran |
| Columns.SnapshotColumns | crates/ciacola-core/src/ledger.rs:728-757 | a snapshot stands, clamped and partial, on a running or claimed killed turn, and nothing else changes |
| Columns.CompletionColumns | crates/ciacola-core/src/ledger.rs:1218-1323 | a running turn settles with its reply and what the exchange reported, column by column, and its agent is billed that amount and pointed at that conversation |
| Columns.FailureColumns | crates/ciacola-core/src/ledger.rs:1418-1489 | a turn in flight settles with its error, the kind of it and a reply if there was one, and its agent is billed the same way |
| Columns.ConfirmationColumns | crates/ciacola-core/src/ledger.rs:692-726 | a confirmed name becomes the agent's conversation, begun by this turn unless it was open already, and stays with the turn |
| Columns.RetirementColumns | crates/ciacola-core/src/ledger.rs:877-891 | an agent is retired exactly when it was, or when none of its turns is waiting or running |
| Columns.CreationColumns | crates/ciacola-core/src/ledger.rs:788-815 | a new agent is active, free of cost and has a conversation nobody opened; no other agent and no turn changes |
| Columns.RedefinitionColumns | crates/ciacola-core/src/ledger.rs:841-863 | a definition may be replaced exactly while it stays with its backend or no turn is recorded, and then nothing else of the agent changes |
| Columns.StoredDefinition | crates/ciacola-core/src/ledger.rs:762-786 | a stored definition is sealed, sandboxed and homed as it asks or, where it does not say, as the server is |
| Steps.AdmissionStep | crates/ciacola-core/src/admission.rs:102-306 | in a run, an admission decides by the day and inserts at most the decided row, under the next number, with one delivery in the admitting process |
| Steps.InterruptionSteps | crates/ciacola-core/src/ledger.rs:1084-1179 | in a run, an operator's record and a recovery's statement end what they may end, marked as never run or cut short, and touch nothing else |
| Steps.SettlementSteps | crates/ciacola-core/src/exec.rs:149-221 | in a run, a delivery that finds its turn running settles it by what the provider returned, and by a known nothing when there was no call |
| Steps.RedefinitionSteps | crates/ciacola-core/src/ledger.rs:841-863 | in a run, a check passes exactly when the definition may be replaced, and its write replaces that and nothing else |
| Steps.BootedClaimsNothing | crates/ciacola-core/src/exec.rs:671-696 | a booted server claims nothing in any continuation in which its gate is not opened |
| Steps.CrashIsFinal | crates/ciacola-core/src/exec.rs:249-288 | after a crash, in any continuation, the process claims nothing, calls no provider, and its writers stay where the crash found them |
| Store.Ledger.SettleInterruption | crates/ciacola-core/src/ledger.rs:1111-1179 | the column-wise update of a queued or running row, and nothing else; recovery touches running rows only |
| Store.Ledger.AbortClaimedTurn | crates/ciacola-core/src/ledger.rs:1187-1209 | only a running row becomes a failed known zero that was not attempted |
| Store.Ledger.CompleteTurn | crates/ciacola-core/src/ledger.rs:1218-1271 | only a running row settles, and its agent is billed and pointed at the session exactly then |
| Store.Ledger.FailExchange | crates/ciacola-core/src/ledger.rs:1418-1489 | any row in flight settles with what the exchange reported, and the agent is billed exactly then |
| Store.Ledger.RollUpSettledTurn | crates/ciacola-core/src/ledger.rs:1273-1323 | the cost is banked with saturation and the session origin stamped when the id changed or was unopened |
| Store.Ledger.RecordUsageSnapshot | crates/ciacola-core/src/ledger.rs:728-757 | a snapshot replaces the usage of a running or claimed killed row and of no other |
| Store.Ledger.RecordProviderSession | crates/ciacola-core/src/ledger.rs:692-726 | the agent adopts the id without moving the origin of an open session, and the turn keeps it |
| Store.Ledger.AssignSession | crates/ciacola-core/src/ledger.rs:675-690 | the agent points at an unopened session |
| Store.Ledger.CreateAgent | crates/ciacola-core/src/ledger.rs:788-815 | the agent is stored with this server's defaults and an unopened session |
| Store.Ledger.UpdateAgentDef | crates/ciacola-core/src/ledger.rs:841-863 | the definition is replaced, under this server's defaults, unless it would move a recorded conversation to another backend |
| Store.Ledger.RetireAgent | crates/ciacola-core/src/ledger.rs:877-891 | an agent retires exactly when it is active and idle |
| Store.Ledger.SpawnDepth | crates/ciacola-core/src/ledger.rs:893-915 | the number of spawns to the root, or the bound |
| Store.Ledger.SpendSince | crates/ciacola-core/src/ledger.rs:928-951 | the clamped exact spend of the turns settled since the cutoff |
| Store.Ledger.Totals | crates/ciacola-core/src/ledger.rs:952-970 | the clamped exact sum over every agent ever, and the number of turns |
| Store.Ledger.SaturatingFold | crates/ciacola-core/src/ledger.rs:944-949 | refuses if and only if an amount is negative, and otherwise returns the clamped exact sum |
| Store.Ledger.LoadAccounting | crates/ciacola-core/src/admission.rs:308-341 | one record for each registered backend and each backend an active agent names |
| Store.Ledger.AdmissionReportAt | crates/ciacola-core/src/admission.rs:87-98 | the report for some order of the window's rows |
| Store.Ledger.DecideTurn | crates/ciacola-core/src/admission.rs:102-275 | the refusals in the order the transaction meets them |
| Store.Ledger.AdmitTurn | crates/ciacola-core/src/admission.rs:102-306 | the decision, and the one queued row it inserts under the next seq, or no change |
| Executor.Runner.StartGated | crates/ciacola-core/src/exec.rs:671-683 | a new executor is parked and claims nothing |
| Executor.Runner.Begin | crates/ciacola-core/src/exec.rs:684-696 | past the gate the loop dispatches, or ends when a drain came first |
| Executor.Runner.AfterPermit | crates/ciacola-core/src/exec.rs:123-135 | the guard is kept exactly when `stopping` was not set, and the count returns otherwise |
| Executor.Runner.Kill | crates/ciacola-core/src/exec.rs:742-753 | the token registered for that turn is signalled, and no other |
| Executor.WritingTouches | crates/ciacola-core/src/exec.rs:249-288 | the writer's statements leave the last snapshot on the row and touch no other turn |
| Executor.MidwayTouches | crates/ciacola-core/src/ledger.rs:728-757 | a kill between any two of the writer's statements leaves the row killed, free of cost and holding the last snapshot handed over |
| Executor.CallTouches | crates/ciacola-core/src/exec.rs:176-221 | from the provider call on, the turn ends as its result says or, wherever a kill fell, as killed |
| Executor.Runner.RunClaimedTurn | crates/ciacola-core/src/exec.rs:149-221 | every path settles the claimed turn and no other, and the provider is reached only through the frozen protection and the gate |
| Executor.Runner.RunCancellable | crates/ciacola-core/src/exec.rs:571-609 | a kill after the claim, after the token, before the poll, in the call or after its return leaves the turn killed, uncalled if it came before the call, and the registration is always removed |
| Executor.Runner.Deliver | crates/ciacola-core/src/exec.rs:701-731 | a delivery claims exactly when the executor is not stopping and the row is queued, duplicates of registered turns included; it leaves what it claimed settled, touches no other turn, and gives back guard and registration on every path |
| Executor.HandExecutor.Receive | crates/ciacola-core/src/exec.rs:696-700 | the oldest submission is taken, and none before the gate |
| Executor.PollingExecutor.Tick | crates/ciacola-core/src/polling.rs:115-163 | a tick reads the queued rows and delivers them in order up to the point where a drain lands; each ends settled and every other row is untouched |
| Recoverer.SettleOrphans | crates/ciacola-core/src/recover.rs:103-155 | each running row is settled once as an orphan, and the report counts them, the processes killed and the turns that could not be verified |
| Recoverer.OrphanIsExplained | crates/ciacola-core/src/recover.rs:103-155 | the stored error says verified dead exactly when the linked backend could be searched, and session kept exactly when the agent has one |
| Recoverer.RecoverAll | crates/ciacola-core/src/recover.rs:97-163 | no running row is left, the queued rows are unchanged and resubmitted once each, and the report counts both |
| Fence.MixedWritersKeepTheFence | crates/ciacola-core/src/ledger.rs:163-194 | in any interleaving of current and older writers an enforced turn runs only under an aware claimant, no version-zero failure keeps the new writers' default, and every settled turn has a time |
| Fence.OldClaimsAreFencedIff | crates/ciacola-core/src/ledger.rs:169-179 | an older claim takes effect if and only if the queued turn carries no ceiling |
| FencedRuns.RunKeepsFence | crates/ciacola-core/src/ledger.rs:163-194 | every run of the protocol keeps every row fenced, so the triggers leave each of its statements as written |
| Fence.TriggersSpareInterruptions | crates/ciacola-core/src/ledger.rs:1111-1179 | with the triggers in place the current interruption writes exactly what it says |
| Fence.TriggersSpareCurrentWriters | crates/ciacola-core/src/ledger.rs:1052-1064 | the current claim, abort and snapshot pass the triggers unchanged |
| Fence.TriggersSpareCompletion | crates/ciacola-core/src/ledger.rs:1218-1271 | so does the current completion |
| Fence.TriggersSpareFailure | crates/ciacola-core/src/ledger.rs:185-194 | the current failure with the triggers is the settlement the protocol uses |
| ClaudeStream.StreamObservations.Observe | crates/ciacola-agent-claude/src/lib.rs:280-319 | after any events the cumulative usage is the meaning of the whole stream, and a snapshot is returned exactly when an event changed it |
| ClaudeStream.BucketsAddUp | crates/ciacola-agent-claude/src/outcome.rs:44-105 | usage is reported when any bucket is, and each portable total is the exact sum of its buckets clamped once |
| ClaudeStream.AfterMessage | crates/ciacola-agent-claude/src/outcome.rs:69-75 | a first-seen message adds its usage to the exact sum clamped once |
| ClaudeStream.AfterReport | crates/ciacola-agent-claude/src/lib.rs:299-311 | a usage-bearing result replaces whatever was counted |
| ClaudeStream.LastSnapshotIsCumulative | crates/ciacola-agent-claude/src/lib.rs:336-345 | the last snapshot published is the cumulative usage of the stream, and one is published if and only if there is any |
| ClaudeStream.CachedIsPartOfInput | crates/ciacola-agent-claude/src/outcome.rs:44-66 | cache reads never exceed the input they are part of |
| ClaudeTurn.RunTurn | crates/ciacola-agent-claude/src/lib.rs:321-392 | every change is published in order, and the result, the announced session and the partial telemetry are those the stream as a whole determines |
| ClaudeTurn.ResultSettlesTheRow | crates/ciacola-agent-claude/src/outcome.rs:106-190 | the last result of the stream settles the row: ok exactly when it is no error, the limit kind for the two limit subtypes alone, the message, the trimmed reply, the price clamped and complete when one was given, and the name the adapter announces |
| ClaudeTurn.BrokenRunSettlesTheRow | crates/ciacola-core/src/agent.rs:633-664 | a stream without a result fails the row with what was complained of last, its cost lost or never to be told, and the name it was in; only a process that never started leaves nothing to settle |
| ClaudeTurn.ObservedUsageReachesTheRow | crates/ciacola-agent-claude/src/outcome.rs:133-164 | the settled row holds the result's own usage, never that plus what was streamed, else the last snapshot, else nothing reported |
| ClaudeTurn.FinalResultAgreesWithTheStream | crates/ciacola-agent-claude/src/outcome.rs:146-164 | a result that ends the stream reports exactly what the accumulator holds |
| ToolGrant.CoversIff | crates/ciacola-core/src/identity.rs:54-74 | a grant covers exactly itself and whatever continues its fixed prefix with one of its marks |
| ToolGrant.CoversIsTransitive | crates/ciacola-core/src/identity.rs:47-74 | coverage is transitive over all strings |
| ToolGrant.GrantChildTools | crates/ciacola-core/src/identity.rs:99-117 | every request lands on one side, in order: granted exactly when the parent holds it, and all of it without a parent |
| ToolGrant.SpawningAttenuates | crates/ciacola-core/src/identity.rs:76-117 | creating a child with what its parent grants keeps every agent within its parent's grant |
| ToolGrant.DescendantsHoldNoMore | crates/ciacola-core/src/identity.rs:76-117 | along a spawn chain of any length every tool a descendant holds is covered by every ancestor's grant |

## Left out

* The Codex adapter's thread-id pump and `drive_stream`: a set lookup and a forwarding loop beside the Claude accumulator.
* The migration runner, the historical migrations, prune, VACUUM and the health report.
* The `fail_turn` compatibility path and the test-support enqueue, which add nothing to `fail_exchange` and the guarded insert.
* `drain`'s grace period: a drain that gives up with work in flight reports a positive count and promises nothing.
* The concurrency semaphore: a task may wait for its permit for any time, and any number may hold one.
* The agent's loopback token and MCP file: loading takes a flag that says whether the scope could be built.
* System prompts, the rotation preamble and notification texts; the orphan and provider error messages are shortened.
* Lower-casing the message of a limit beyond the ASCII letters.
* `ps` scanning for surviving provider processes: an arbitrary result that only the report and the message see.
* USD thresholds as floating point: limits are integer micro-dollars that satisfy `validate`.
* The reported cost of a Claude result, which the adapter converts from floating-point dollars: taken as integer micro-dollars.
* Usage keys that carry the same number under an older name: one bucket each.
* A poisoned kill-map lock, which only adds one more way to abort before the provider.
* A hard cap on the turns of one session under rotation: a killed turn's provider may still confirm its old session.
* Redefinition of an agent's tools after it was spawned: `ToolGrant.DescendantsHoldNoMore` is about grants as they were made.
* The read of an agent's provider that precedes an interruption is taken as part of it; nothing but a redefinition of the agent can fall between.
- Executor.PollingExecutor.Tick: delivers its rows one after the other, which is one schedule of the tasks it spawns; their interleavings are runs of the step system.
