# AgentQuilt's runtime kernel, modelled and proved

AgentQuilt runs agents whose every effect is a declared operation. A *run* is worked in steps by
interchangeable workers on leases; a step drains the run's mailbox, asks a model for a plan and
dispatches the plan's calls one by one. A call is checked against the run's ceiling and its principal's
grants, may have to park on a person's approval, runs its body inside a savepoint and leaves one event
and one action in an append-only ledger, under a key that lets the same call be replayed after a crash.

This project models one (org, plane) of that system and proves what its documentation promises about
it, over every interleaving of its transactions.

## How the model is laid out

The tables are one value, `Tables.State`; a row's identifier is its position, because rows are only ever
added. Each transaction is a function on that value (`Runs`, `Dispatching`, `Working`), where `None` or
`Raised` stands for an exception, which aborts the transaction. `Histories` is any sequence of committed
transactions: creating, steering and cancelling runs, claiming and working steps, calls from outside any
run (deciding an approval is one of them), lease reaps, expiries and changes of grants. The laws are
lemmas about those functions and histories.

`Planes.Plane` is the same system as it runs: a class whose fields are the tables and whose methods
update them statement by statement, with a snapshot put back where the source rolls a savepoint or a
transaction back. Every method is proved equal to the function the laws are about, and every committed
transaction extends the object's history, so `HoldsAlways` carries the guarantees over to the object.

`dafny verify dfyconfig.toml` checks every file.

| file | what it holds |
|---|---|
| `Tables.dfy` | rows, declarations, the empty plane |
| `Ledgers.dfy`, `Approvals.dfy` | the ledger's two writes, spending and asking for an approval |
| `Runs.dfy`, `Dispatching.dfy`, `Working.dfy`, `Histories.dfy` | the transactions and their interleavings |
| `Planes.dfy` | the imperative form, proved against them |
| `DispatchLaws.dfy`, `DispatchTheorems.dfy` | what one call keeps and promises, and exactly when a write commits |
| `Verdicts.dfy` | exactly when a call is replayed, refused and why, put to a person, or answered as a read |
| `Moves.dfy` | what creating, steering, claiming and reaping do, and exactly when they are refused |
| `Answers.dfy`, `Refusals.dfy` | what deciding, expiring and cancelling do, and that nothing refused is asked, opened or spent again |
| `Reports.dfy` | what a step reports, against the ledger |
| `RunLaws.dfy`, `BatchLaws.dfy`, `Lifecycle.dfy` | what every transaction keeps, with no assumption on leases |
| `Leases.dfy`, `LeaseTimes.dfy`, `StaleSteps.dfy`, `Reclaims.dfy` | what leases add, when they are kept, and what goes wrong when one is not |
| `Guarantees.dfy` | the guarantees of whole histories |
| `Bystanders.dfy`, `Plans.dfy`, `Rounds.dfy` | what others leave alone of a run, one dispatch of a plan, and progress through approvals |
| `Crashes.dfy`, `Conflicts.dfy` | crashes leaving no trace, and lost races being told |
| `Mailboxes.dfy`, `Transcripts.dfy`, `Replies.dfy`, `Budgets.dfy` | what a step reads, what it is shown, what it may spend |
| `Fitting.dfy`, `Prefixes.dfy`, `Sorting.dfy`, `Keys.dfy`, `Skills.dfy` | prompt assembly, the hashed strings, self-compensating activation |

## Assumptions the theorems name

* **Leases.** A worker whose step was reclaimed never commits it (`Histories.Honoured`). Only the theorems
  that list it need it: state and queue agreement, one reading of each message, the transcript, crashes
  and progress through approvals. `LeaseTimes.PromptIsHonoured` derives it from the program's own intent
  that a lease outlasts its step; `Reclaims.ReclaimedStepBreaksTheShape` is a history that breaks it.
  `Leases.RunningStepKeepsShapesIff` says exactly what it buys a running run, and
  `StaleSteps.StaleStepKeepsShapesIff` what a step of the wrong number does to a run in any state but
  cancelled. Cancelling, exactly-once, authority and refusals need no lease.
* **Atomic steps.** Each transaction is atomic. The budget theorems rest on it: the source reads what a run
  has spent before it takes the run's lock, so two steps of one run that overlap, which takes a lapsed
  lease, could both pass the cap.
* **Crashes.** The clocks that claims and reaps read do not run backwards (`Crashes.TimesClimb`).
* **Progress.** `Rounds.PlanFinishes` takes distinct call ids and well-formed writes whose bodies do not
  raise. Between a park and the next turn anything may be committed by anyone, under honoured leases, but
  a step or a cancel of this run; at the next turn the approval must be open and unexpired and the
  principal's grants what they were (`Rounds.HandedOn`). A call that commits must state the head it meets
  (`Plans.StatesHeads`): a plan that loses a race is answered, not finished.
* **Hashing.** SHA-256 is injective, so a digest is modelled by what it digests; `Keys` proves the hashed
  strings themselves unambiguous.

Where the code and its documentation differ the model follows the code: the docstring of `_drain` says a
step worked again drains exactly what the crashed one drained, but it also drains what arrived since
(`Mailboxes.ReworkDrainsMore`); and the UPDATE in `consume_approval` may spend several equal approvals at
once (`Planes.Plane.ConsumeApproval`), though never one approval for two actions.

## Model

| member | source | states |
|---|---|---|
| Guarantees.StateAndWorkAgree | backend/app/kernel/runs/work.py:223-264 | in every state an honoured history reaches, checkpoints are numbered 1..n, a run is queued or running iff it has exactly one queue row, at step n + 1, and waits iff exactly one question stands, about step n + 1 |
| Guarantees.QueueNeverCollides | backend/app/kernel/runs/tick.py:90-129 | no post, answer, expiry or settled step of such a state ever meets a queue row already there |
| Guarantees.CancelIsFinal | backend/app/kernel/runs/service.py:210-246 | with no lease assumption, a cancelled run stays cancelled, queueless and unclaimable, and gains no checkpoint or message, whatever follows |
| Guarantees.FailedIsLeftOnlyForCancelled | backend/app/kernel/runs/work.py:152-158 | a failed run is only ever cancelled and never claimed again |
| Guarantees.AnsweredOnce | backend/app/modules/governance/service.py:67-98 | a request once answered never asks again, and later decisions and expiries of it change nothing |
| Guarantees.CeilingIsFixedAtCreate | backend/app/kernel/runs/service.py:77-87 | the ceiling and cap a run was created with are the ones it has after any history |
| Moves.CreateIff | backend/app/kernel/runs/service.py:49-112 | a run is created unless a production run binds an unpromoted skill; it starts queued and free at step 1, with nothing read, said or spent |
| Moves.SendIff | backend/app/kernel/runs/service.py:123-195 | a message is refused iff its run was cancelled or failed; a finished run is queued at its next step, any other is only told |
| Moves.OnlyCollisionsFail | backend/app/kernel/runs/service.py:162-195 | in any state, a hand-back, wake-up or settled step fails iff the queue row it inserts is there, and never overwrites one |
| Moves.RevocationIsFelt | backend/app/kernel/declare/service.py:124-143 | a grant withdrawn refuses the next call, whatever ceiling its run has |
| Moves.ClaimIff | backend/app/kernel/runs/work.py:72-113 | a step can be claimed iff it is the next of a queued or running run and free, on a lease of five minutes |
| Moves.ReapFreesIff | backend/app/kernel/runs/tick.py:55-69 | after a reap a step can be claimed iff it was free by the later of the two clocks; nothing else moves |
| Moves.DeadWorkersStepIsFreed | backend/app/kernel/runs/tick.py:55-69 | a lease that ran out never holds a step past the next reap |
| Guarantees.ExactlyOnce | backend/app/kernel/declare/ledger.py:78-90 | over any history, no two actions share operation, run, step and call id, and every earlier action keeps its key; streams stay gapless and paired |
| Guarantees.ApprovalsSpendOnce | backend/app/kernel/identity/service.py:180-200 | no approval is named by two actions; consumed, rejected and expired are terminal |
| Guarantees.EveryActionWasAuthorised | backend/app/kernel/declare/service.py:124-202 | every action any history commits was allowed by its run's ceiling and its principal's grants where its transaction started, and if either asks first it names an approval it consumed, unexpired by the clock of that very call, opened by a user or system, for the same principal, version and args |
| Lifecycle.ApplyKeeps | backend/app/kernel/runs/service.py:123-246 | every transaction keeps the lease-free invariant and only moves ledger, approvals and runs forwards |
| Lifecycle.HistoryKeeps | backend/app/kernel/declare/ledger.py:92-151 | so does every history |
| Leases.SettleResumes | backend/app/modules/governance/service.py:73-98 | answering a question, whichever way, re-queues exactly the step that asked it and leaves a cancelled run alone |
| Answers.DecidingAnswers | backend/app/modules/governance/service.py:61-98 | an approval opens the request and names its granter, a rejection closes it with its reason, either hands the parked step back and reports it, and a request already answered or missing is left alone |
| Answers.DecisionCommitsIff | backend/app/modules/governance/service.py:46-60 | called from outside every run, deciding commits iff the call is cleared and its caller is a person or the system |
| Answers.DecisionEffect | backend/app/modules/governance/service.py:61-98 | and then it takes that decision, pays for itself if it had to ask, and moves nothing else but the ledger |
| Answers.ExpiryIff | backend/app/kernel/runs/tick.py:90-129 | a request expires iff its time has come, with its reason and the same hand-back; one answered meanwhile is left alone |
| Refusals.HistoryAsksOnce | backend/app/kernel/identity/service.py:203-216 | over any history no call of a step that was refused is asked about again, and a question that is asked stands alone |
| Refusals.OneQuestionStands | backend/app/kernel/identity/service.py:203-216 | so a call stands on at most one question, unless its run was cancelled |
| Refusals.RefusalIsFinal | backend/app/kernel/identity/service.py:213-216 | a question rejected, expired or withdrawn is, whatever follows, named by no action, never put again, and never parked on |
| Refusals.RefusedCallIsTold | backend/app/kernel/declare/service.py:282-309 | the call that asked it, made again unpaid, is denied as approval_unavailable with that answer and reason |
| Refusals.CancelWithdraws | backend/app/kernel/runs/service.py:210-246 | a cancel ends and unqueues its run, expires exactly its requested and open approvals, and journals one note |
| Refusals.WithdrawnForGood | backend/app/kernel/runs/service.py:228-233 | over any later history no row that stood when its run was cancelled is opened, decided or spent |
| Leases.HeldStepIsNext | backend/app/kernel/runs/work.py:98-113 | a step whose lease still stands is the next step of a running run and its only queue row |
| Leases.RunningStepKeepsShapesIff | backend/app/kernel/runs/work.py:236-264 | committing a step of a running run keeps run, queue and questions in agreement iff that step is the queued one |
| StaleSteps.StaleStepKeepsShapesIff | backend/app/kernel/runs/work.py:227-264 | committing a step of the wrong number, on a run in any state but cancelled, keeps the agreement iff the run is not running and the step leaves no checkpoint and no question |
| Leases.HonouredHistoryKeeps | backend/app/kernel/runs/work.py:72-113 | the agreement holds after every honoured history |
| LeaseTimes.LiveLeaseStands | backend/app/kernel/runs/work.py:84-97 | nothing but the worker's own step, or a clock past the lease, takes a leased step from its worker, except a cancel |
| LeaseTimes.PromptIsHonoured | backend/app/kernel/runs/work.py:44-46 | if every lease outlasts its step, the lease assumption holds |
| LeaseTimes.PromptHistoriesAgree | backend/app/kernel/runs/work.py:44-46 | so state and queue agree in every state such a history reaches |
| Reclaims.ReclaimedStepBreaksTheShape | backend/app/kernel/runs/work.py:236-241 | a concrete history in which a reclaimed step commits: step 1 is checkpointed twice, and the lease assumption rejects it |
| DispatchTheorems.LevelIsStricter | backend/app/kernel/declare/service.py:124-143 | a call runs at a level iff both sides grant it, neither says never, and it asks iff either asks; it has no level iff a side grants nothing |
| DispatchTheorems.WriteCommitsIff | backend/app/kernel/declare/service.py:96-202 | a fresh domain write commits iff granted by both sides, well formed, at the version that is its target's commit count, approved if it must ask, and its body does not raise |
| DispatchTheorems.ConflictIff | backend/app/kernel/declare/service.py:192-199 | it is refused as a conflict iff it would have committed but for the version it states |
| DispatchTheorems.CommitIsAuthorised | backend/app/kernel/declare/service.py:166-191 | a commit adds one action and one event, the next version of its own stream, holding the call's key, args, result and compensator, and names an approval that pays for it iff it had to ask |
| DispatchTheorems.CommitEffect | backend/app/kernel/declare/service.py:159-202 | beside the ledger a committed domain write runs its body once and spends, if it had to ask, exactly the approvals that pay for it |
| DispatchTheorems.CommittedWriteReplays | backend/app/kernel/declare/service.py:102-106 | at any later time the same operation, step and call id answers with the same action and leaves the whole state unchanged |
| DispatchTheorems.ReplayIsSilent | backend/app/kernel/declare/service.py:312-331 | a replay changes nothing and names the stored action |
| DispatchTheorems.RefusalFrame | backend/app/kernel/declare/service.py:230-263 | every refusal, a conflict after body and spend included, leaves exactly one denial event and drops exactly its own reservation |
| DispatchTheorems.ConflictIsReal | backend/app/kernel/declare/service.py:192-199 | a conflict is reported only when the stated version is not the number of commits there are, and reports both |
| DispatchTheorems.WaitingFrame | backend/app/kernel/declare/service.py:282-309 | parking appends no event, adds at most one request and keeps the reservation open |
| DispatchTheorems.InRunIgnoresRuns | backend/app/modules/governance/service.py:52-53 | a dispatch from inside a run neither reads nor writes any run |
| Verdicts.ReplayIff | backend/app/kernel/declare/service.py:312-331 | a call is answered from the ledger iff the same operation was committed from the same run and step under the same call id |
| Verdicts.UnpaidCallAsks | backend/app/kernel/declare/service.py:282-309 | an unpaid asks_first call runs nothing: outside a run it is refused, inside it asks for 72 hours, unless its continuation stands on a question, which it then waits on or is told the answer of, and asks none |
| Verdicts.WaitsIff | backend/app/kernel/declare/service.py:282-309 | a call waits iff it is made in a run, was not committed, must ask and is unpaid, and no refusal of its continuation comes first |
| Verdicts.ReadAnswersIff | backend/app/kernel/declare/service.py:205-227 | a fresh domain read is answered iff granted by both sides, its arguments are valid, its target parses, its body does not raise and, if it must ask, something pays for it |
| Verdicts.ReadEffect | backend/app/kernel/declare/service.py:205-227 | an answered read runs its body once, commits nothing, leaves one audit event, and spends all that pays for it, so the same call must ask again |
| Verdicts.EachRefusalHasItsCause | backend/app/kernel/declare/service.py:96-121 | no_grant, never, invalid_args and expected_version_required are each given exactly for their own cause |
| Verdicts.ApprovalRefusedIff | backend/app/kernel/identity/service.py:203-216 | so are approval_required and approval_unavailable |
| Verdicts.EveryRefusalIsFiled | backend/app/kernel/declare/service.py:230-263 | every refusal has one of eight reasons and is filed on the operation's stream, or on its target's for a lost race |
| DispatchLaws.DispatchKeepsSound | backend/app/kernel/declare/service.py:96-121 | every dispatch keeps the ledger's and the approvals' invariants |
| Ledgers.CommitLandsIff | backend/app/kernel/declare/ledger.py:99-102 | a versioned commit under a fresh key lands iff its expected version is the number of earlier commits on its aggregate |
| Ledgers.CommitKeepsLedger | backend/app/kernel/declare/ledger.py:107-176 | a commit keeps versions 1..head in append order, heads at the last commit, and events, actions and keys in bijection |
| Ledgers.AppendKeepsLedger | backend/app/kernel/declare/ledger.py:182-199 | an append, at version 0 and with no action, disturbs none of that |
| Ledgers.OneActionPerReservation | backend/app/kernel/declare/ledger.py:152-176 | two actions under one key are one action |
| BatchLaws.BatchKeeps | backend/app/kernel/runs/work.py:299-361 | a whole plan, whatever versions it stated, touches no run but its own, gives that one only notices of the races it lost, and asks at most one question, where it stopped |
| Conflicts.ConflictsAreTold | backend/app/kernel/runs/work.py:343-356 | over any history a run's mailbox never holds more conflict notices than the ledger holds conflict denials for it, and until it is cancelled or fails exactly as many |
| Reports.EveryCheckpointIsTrue | backend/app/kernel/runs/work.py:234-264 | over any history, each checkpoint keeps the text of a plan its step journaled and one result per call of it, each borne out by a commit, audit, denial or earlier action of exactly that call in the ledger |
| Reports.LostRacesAreExplained | backend/app/kernel/runs/work.py:343-356 | a step's run is told of each race it lost, in order, once, and of nothing else; an ended run of none |
| Reports.ParkedStepSays | backend/app/kernel/runs/work.py:227-233 | a parked step waits on the open question of the first call it did not get past, journals it, leaves its queue row and no checkpoint |
| Reports.FinishedStepLeaves | backend/app/kernel/runs/work.py:234-264 | a held step answered to its end always commits and leaves its run exactly billed, told, checkpointed and queued next, or done if it called nothing |
| Reports.StepsStateWhatTheyRead | backend/app/kernel/runs/work.py:364-386 | a plan's versioned write is refused for stating no version iff its target does not parse, and a race it loses reports the version its step read against the commits there are |
| Bystanders.HistoryLeavesRun | backend/app/kernel/declare/service.py:312-348 | whatever else is committed, a run nobody works or cancels keeps its checkpoints, usage and keys, its open approvals stay open or are spent, and it is asked nothing new |
| Plans.CallRuns | backend/app/kernel/declare/service.py:146-202 | a runnable call replays if committed, asks one new question if nothing can pay for it, and commits otherwise |
| Rounds.ApprovalFreesStep | backend/app/modules/governance/service.py:73-98 | approving what a run is parked on opens exactly that row and lets any worker claim the parked step |
| Rounds.GapResumes | backend/app/kernel/runs/work.py:227-233 | after any honoured gap in which nobody worked it, a run held again is at the step it parked on, with its checkpoints, ceiling, keys and answers as they were |
| Rounds.RoundProgress | backend/app/kernel/runs/work.py:299-321 | a re-work replays the committed prefix and commits everything, or commits the call it was parked on and parks strictly later with fewer calls left to ask |
| Rounds.DriveEnds | backend/app/kernel/runs/work.py:227-233 | rounds that progress never get stuck, and end once there are more of them than there were questions pending |
| Rounds.PlanFinishes | backend/app/kernel/runs/work.py:299-321 | a fixed plan ends with every call committed after at most as many approvals as it has calls that must ask, unless its budget ends first, whatever others commit between its turns |
| Rounds.DriveIsHistory | backend/app/kernel/runs/work.py:183-202 | the state a plan completes in is reached by one history, its turns with everything committed between them |
| Crashes.CrashesAreInvisible | backend/app/kernel/runs/tick.py:55-69 | deleting every reap and every claim whose step never committed gives the same plane up to leases and running against queued |
| Mailboxes.EveryMessageOnce | backend/app/kernel/runs/work.py:450-472 | the mailbox is numbered 1..m, and the settled steps' portions are adjacent, disjoint and make up exactly 1..watermark |
| Mailboxes.PortionIsWhatWasDrained | backend/app/kernel/runs/work.py:174-179 | the portion a checkpoint marks off is, for ever after, what its step drained |
| Mailboxes.ReworkDrainsMore | backend/app/kernel/runs/work.py:450-472 | a step worked again drains the earlier attempt's drain and then what arrived since |
| RunLaws.DrainIsRange | backend/app/kernel/runs/work.py:129-145 | a drain is exactly the visible messages past the watermark |
| RunLaws.PostKeeps | backend/app/kernel/runs/service.py:135-162 | a posted message takes the next number, and a live run is otherwise untouched |
| Transcripts.Said | backend/app/kernel/runs/work.py:535-546 | the loop maps each step to the last plan journaled at it |
| Transcripts.Transcript | backend/app/kernel/runs/work.py:491-532 | the two-index loop renders the conversation: per worked step, the messages it was first to read, then its reply |
| Transcripts.LineShowsSpeaker | backend/app/kernel/runs/work.py:517-531 | a line opens with its own speaker's tag and ends with what was said |
| Transcripts.TranscriptIsTold | backend/app/kernel/runs/work.py:517-531 | with climbing watermarks that is the portions in (previous, this] in order, each followed by its reply |
| Transcripts.EveryMessageIsTold | backend/app/kernel/runs/work.py:491-532 | the transcript tells each message up to the watermark exactly once, in order |
| Transcripts.TurnHoldsMailboxOnce | backend/app/kernel/runs/work.py:139-143 | transcript and intake share no message and together are the mailbox as drained |
| Transcripts.RepliesFollowWhatTheyAnswer | backend/app/kernel/runs/work.py:494-498 | a message precedes a reply iff that step or an earlier one had read it |
| Replies.TranscriptIsTheExchange | backend/app/kernel/runs/work.py:494-498 | for every run of an honoured history, cancelled or not, the transcript shows at each step the text its checkpoint kept, however often the step was worked |
| Budgets.SpendIsBounded | backend/app/kernel/model/service.py:53-62 | over atomic steps each answered call was within the cap, so spend never exceeds cap - estimate + usage of the last call |
| Budgets.OverCapStepRefuses | backend/app/kernel/model/service.py:55-62 | a step past the cap leaves one denial saying by how much and no usage, checkpoint or other change, and fails a running run with that reason |
| Budgets.StepAnswersIffWithinCap | backend/app/kernel/model/service.py:55-64 | a committed step makes a model call iff its estimate fits under the cap, and adds exactly that call's usage row |
| Budgets.SpendAdds | backend/app/kernel/model/service.py:88-98 | spend is input plus output, row by row |
| Budgets.CallsAreMadeWithinCap | backend/app/kernel/model/service.py:53-62 | over any history, each worked step calls the model iff what its run was billed before, summed from the completions themselves, and its estimate come to no more than the cap |
| Budgets.BillIsBounded | backend/app/kernel/model/service.py:53-62 | so a run is billed nothing, or at most its cap less its last estimate and with its last call's own usage |
| Budgets.SpentRunFails | backend/app/kernel/runs/work.py:152-158 | once spend reaches the cap the next held step ends the run failed, unless it was cancelled |
| Budgets.SpentRunStaysSpent | backend/app/kernel/model/service.py:88-98 | and it never calls a model or checkpoints again, under any later history |
| Fitting.Fit | backend/app/kernel/context/service.py:310-326 | the loop returns the greedy split in stable priority order, the kept part in slot order |
| Fitting.FitIsSound | backend/app/kernel/context/service.py:310-326 | kept and dropped are exactly the slices; cost is within max(budget, prefix); nothing dropped fits back; kept is in D1, D3, D4, D5, D6 order |
| Fitting.UrgentSlicesComeFirst | backend/app/kernel/context/service.py:318-324 | a slice is dropped only for kept slices at least as urgent as itself |
| Fitting.TokensRoundUp | backend/app/kernel/context/service.py:120-122 | a body costs its length over four, rounded up |
| Fitting.GreedyIsGreatest | backend/app/kernel/context/service.py:318-324 | the selection is lexicographically greatest among all that fit |
| Fitting.PromptFitsIffPrefixDoes | backend/app/kernel/context/service.py:145-150 | with the cap as budget a whole prompt is within the cap iff its prefix is |
| Sorting.SortedSorts | backend/app/kernel/context/service.py:318-325 | the sort is ordered, a permutation and stable |
| Prefixes.Assemble | backend/app/kernel/context/service.py:178-210 | assembly accepts iff every slot is declared, none is shared and none is the kernel's, and returns the layers in slot order; otherwise it names the first offer that could not be taken, and why |
| Prefixes.PrefixIsInOrder | backend/app/kernel/context/service.py:196-196 | an accepted prefix is strictly increasing in L0..L6 and holds exactly the offered layers |
| Prefixes.RegistrationOrderIsForgotten | backend/app/kernel/context/service.py:188-196 | acceptance, prefix and hashed key are the same under any permutation of contributors |
| Prefixes.PrefixKeysTellApart | backend/app/kernel/context/service.py:258-266 | equal key strings mean equal slots, owners, versions, order and binding |
| Prefixes.EveryPromptCosts | backend/app/kernel/context/service.py:120-122 | no accepted prefix is free, so a step's estimate is positive |
| Keys.KeyTextDetermines | backend/app/kernel/declare/service.py:346-348 | run:step:call determines all three parts, whatever the call id contains |
| Keys.KeysHashApart | backend/app/kernel/declare/service.py:346-348 | distinct keys of the model hash distinct strings |
| Keys.ArgsTextDetermines | backend/app/kernel/identity/service.py:133-140 | the NUL-joined string determines version, canonical args and scope when the first two are NUL-free |
| Keys.DigestsHashApart | backend/app/kernel/identity/service.py:133-140 | distinct bindings of the model hash distinct strings |
| Keys.PrefixTextDetermines | backend/app/kernel/context/service.py:258-266 | the newline-joined terms determine the ordered layers and the binding, null and empty effort identified |
| Skills.SkillTable.ActivateVersion | backend/app/modules/skills/service.py:58-94 | moves one version's stage, returns the stage it replaced and touches nothing else, iff the version exists and is not inline with operations |
| Skills.ReplayRestores | backend/app/modules/skills/service.py:61-67 | replaying the newest k recorded arguments, newest first, passes every check and leaves every version as it was before the last k activations |
| Skills.ReplayRestoresAll | backend/app/modules/skills/service.py:61-67 | replaying all of them restores every starting stage |
| Planes.Plane.CommitAction | backend/app/kernel/declare/ledger.py:78-179 | the statements of a commit come to the ledger's commit function |
| Planes.Plane.ConsumeApproval | backend/app/kernel/identity/service.py:180-200 | one pass spends every matching row and returns the first |
| Planes.Plane.ParkApproval | backend/app/kernel/identity/service.py:203-232 | finds the standing answer or adds one request |
| Planes.Plane.Decide | backend/app/modules/governance/service.py:61-98 | answers a request and hands its run back under the guard |
| Planes.Plane.WriteOp | backend/app/kernel/declare/service.py:146-202 | spend, body and commit inside a savepoint that a conflict or a missing approval puts back |
| Planes.Plane.ReadOp | backend/app/kernel/declare/service.py:205-227 | a read commits nothing, leaves an audit event and never completes its reservation |
| Planes.Plane.Dispatch | backend/app/kernel/declare/service.py:96-121 | reserve, replay, refuse, read or write, exactly as the laws' dispatch |
| Planes.Plane.CreateThread | backend/app/kernel/runs/service.py:49-112 | a new run, its first queue row and its journal entry |
| Planes.Plane.Deliver | backend/app/kernel/runs/service.py:123-195 | a message numbered one past the last, and a finished run woken |
| Planes.Plane.CancelThread | backend/app/kernel/runs/service.py:210-246 | state, queue, answerable approvals and journal, together |
| Planes.Plane.ClaimNext | backend/app/kernel/runs/work.py:72-113 | leases the first free step, by step and then run id, of a run nobody has locked, and returns none only when there is none |
| Planes.Plane.SetState | backend/app/kernel/runs/work.py:267-283 | moves a running run and otherwise reads its state back |
| Planes.Plane.SettleAnswered | backend/app/kernel/runs/work.py:234-264 | checkpoint and next queue row, unless the run ended under the step |
| Planes.Plane.Report | backend/app/kernel/runs/work.py:324-361 | the tool result, and the notice a lost race also earns |
| Planes.Plane.DispatchPlan | backend/app/kernel/runs/work.py:299-321 | whatever versions the step read, the loop comes to the plan as the laws define it, stopping at the first park |
| Planes.Plane.SumUsage | backend/app/kernel/model/service.py:88-98 | the sum of input and output tokens over the run's usage rows |
| Planes.Plane.AnswerOrRefuse | backend/app/kernel/model/service.py:45-85 | answers iff spend plus estimate is within the cap |
| Planes.Plane.WorkClaimed | backend/app/kernel/runs/work.py:116-180 | one worked step, all or nothing |
| Planes.Plane.ReapAll | backend/app/kernel/runs/tick.py:55-69 | clears exactly the leases that have run out |
| Planes.Plane.ContinueExpired | backend/app/kernel/runs/tick.py:90-129 | expires one stale request and hands its run back under the guard |
| Planes.Plane.ExpireStale | backend/app/kernel/runs/tick.py:72-87 | whatever others commit between its transactions, a pass that keeps the lead leaves no request standing that was stale at its start, and never aborts; alone, it expires and counts exactly those |
| Planes.Plane.Transact | backend/app/kernel/runs/work.py:183-202 | a transaction commits and extends the history, or puts every table back |
| Planes.Plane.HoldsAlways | backend/app/kernel/runs/work.py:124-128 | so everything proved of histories holds of the object between transactions |

## Left out

- `undo_action`: its body creates a run and posts it a message, which are two transactions of the model; the prompt text it writes and the compensating call the model then makes are not modelled.
- Postgres itself: row locks, isolation, deadlock, identity-map staleness, role switching and row-level security; each transaction is atomic, in the order histories give them.
- Which of several equal approvals one UPDATE names, and which answer a cancelled run is told when it has several: the model takes the lowest row.
- Uniqueness of grant rows per principal and operation: grants are a map.
- A dispatch reads its clock once per call in the model; the source reads it again when it parks.
- A call refused outside any run is committed by the model; the route that made it may roll it back.
- The leader's advisory lock: `Planes.Plane.ExpireStale` is told at each request whether it still leads.
- Messages that land after a step's drain: `Working.Work.visible` says how far the drain saw; no liveness is claimed for later ones.
- The parsed form of a call's arguments: bodies, events and approvals see the arguments as given.
- Payload fields that nothing reads back: grant levels and validation errors in denials, a run's stage and skill in its journal, timestamps, queue tags.
- Pydantic validation, RFC 8785 canonicalisation and SHA-256: a predicate, an injective NUL-free form and an injective function.
- The context manifest, layer text, tool block, tier binding lookup and catalog: a step's prompt enters as its token estimate, and contributors as what they returned.
- The envelope's own slot ownership check, which is settled by reading one branch.
- The model provider: a completion is an arbitrary value.
- HTTP routes, authentication, streaming, the pages they serve, migrations, other orgs and planes.
- Mailboxes.EveryMessageOnce: needs the lease assumption, because a checkpoint committed out of order can move the watermark back.
- StaleSteps.StaleStepKeepsShapesIff: leaves out a step of the right number whose lease was reaped and that nobody has claimed since; whether its commit keeps the agreement depends on how its plan ends.
