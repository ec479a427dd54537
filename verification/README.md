# Verification of the runtime's hard core

A Dafny model of the parts of the program whose correctness is hardest to see by reading: the durable approval
protocol, the reduction of a provider request to its context window, context compaction, the event bus, the
strict configuration check, the atomic file commit, and the smaller components they lean on. `dafny verify
dfyconfig.toml` checks everything.

Where the program changes things step by step, the model does too: loops are methods proved against a
specification function, objects with updated fields are classes, and concurrent code is a machine of interleaved
steps, one atomic access each. What the program promises is then proved of the specification functions and of
every run of the machines.

## The components

**Approval operations** (`ApprovalJournal`, `ApprovalLedger`, `ApprovalProtocol`, `ApprovalAdmission`,
`ApprovalExecution`, `ApprovalSafety`, `ApprovalProvenance`, `ApprovalProgress`, `FactRepair`). Any number of
processes prepare, retry, alias, abort and run approvals of one session while other writers replace the state
file, processes die, and the host may lose every ledger write that did not reach the disk. `ApprovalLedger` is
the receipt file, with the exact condition and effect of every operation, and the proof that what it publishes
reads back. `ApprovalJournal` is the recovery record: which captured states each phase may hold, what each
writer after preparation records, and exactly when a retry may go on by itself. `ApprovalProtocol` interleaves
it all and states the invariant, which `ApprovalAdmission` and `ApprovalExecution` carry through every step;
`ApprovalSafety` concludes, for every run, that each operation, and each reviewed target, reaches the provider
at most once, that every record written after preparation is accepted by the recovery check, and that a
compare-and-swap only ever replaced the operation's own unadvanced claim; the plain save of an execution error
compares only the run generation, and what it may replace is stated exactly. `ApprovalProvenance` goes the other
way, from what a run ends with to the step it came from: every receipt to a creation, every executable to an
admission and every start to a last check, each over a snapshot that showed its own target current and open, and
to an execution intent recorded before it. `ApprovalProgress` shows that the machine is not safe by standing
still: from any resumable state an undisturbed request makes its claim and reaches its start. `FactRepair` is
the repair of the four logs, with a crash after any fact.

**Hard fit** (`RequestBudget`, `ReplayClosure`, `Protection`, `Survival`, `HardFit`, `HardFitLoop`,
`ViewCloning`). A provider view is shrunk in four phases until its estimate fits. Which messages are protected,
which go with which, and which result may become a pointer to what is stated exactly, message by message. Proved
over whole fits: protected messages survive in order, the latest instruction word for word, a retained result
keeps every assistant that issued its identity, a retained call keeps its results when identities are not
shared, a replay pointer names one read-only call of the final view, every pass is strictly smaller and
consecutively numbered, the verdict is success exactly when the final view fits, and a refusal of a phase means
that none of its candidates helped. `ViewCloning` is the memory beneath it: results and metadata maps by
reference, the deep clone, and the edit in place that yields the candidate and leaves the caller's messages
alone.

**Compaction** (`RecentWindow`, `ToolCompaction`, `JsonCompaction`). The exact contents of the two
recent-message windows, the count and byte limits of old tool results, and the shortening of long JSON strings
at UTF-8 boundaries (section 3 of RFC 3629), which keeps the value's shape and the ends of every string and is
idempotent.

**Event bus** (`EventBus`). A lossy subscriber, buffered or not, under any number of concurrent publishers, one
atomic access or channel attempt per step, with the exact conservation of drops; and the ordered delivery of a
lossless subscriber up to the renderer's barrier.

**Strict YAML** (`StrictYaml`). The memoised, cycle-detecting walk against plain reachability on an arbitrary
node graph: equivalent within its limits, and every error it reports is explained by a path from the root.

**Files** (`AtomicCommit`, `LinkRename`). A commit over a disk that forgets what was not synced, judged after
every effect and at every failing system call; and the rename made of a link and an unlink, with other processes
changing the names before every call.

**Budget and terminal** (`ChildBudget`, `TtyInput`). An exact account of charged against true active time over
runs with failed saves and crashes; and the leases on the terminal's bytes.

**Smaller round trips and folds** (`ShellQuote`, `FileChanges`, `RetryTiming`). Quoting against the tokenizer
and hook substitution, incremental against batch accounting of changed files, and the timing and number of
retries.

`Text` holds trimming and the lengths the others share.

## Main results

- Approvals: `ApprovalSafety.ProviderStartsAtMostOnce`, `StartedIsDurablyAdmitted`, `WrittenRecordsAreAccepted`,
  `SwapsReplaceOwnClaims`, `FailuresReplaceOwnGeneration`; `ApprovalProvenance.ExecutableWasReviewed`,
  `StartWasChecked`; `ApprovalJournal.ProceedIff`, `RetryAfterCrash`; `ApprovalLedger.AdmitIff`, `CreateIff`;
  `ApprovalProgress.NewRequestReachesItsStart`; `FactRepair.CrashThenRestore`.
- Hard fit: `HardFitLoop.FitRequest`, `HardFitLoop.PointersNeverDangle`, `HardFitLoop.InstructionStands`,
  `Protection.ProtectedMeaning`, `HardFit.PointerMeaning`, `ReplayClosure.GoneIff`, `Survival.DropSurvives`,
  `ReplayClosure.RetainedCallLosesIffShared`, `RequestBudget.FitMeaning`.
- Compaction: `RecentWindow.KeptIff`, `RecentWindow.KeepsIssuer`, `RecentWindow.BudgetedKeepsPlain`,
  `ToolCompaction.ReplacedOnlyBeyondLimits`, `JsonCompaction.CompactedTextHolds`,
  `JsonCompaction.RawIsIdempotent`.
- Events and configuration: `EventBus.RunConserves`, `EventBus.TellsFirstIffAlone`, `EventBus.BarrierDrains`,
  `StrictYaml.Validate`.
- Files, budget, terminal: `AtomicCommit.CommitFile`, `LinkRename.Rename`, `ChildBudget.AccountBalances`,
  `ChildBudget.NeverTooLittleIff`, `ChildBudget.NeverTooMuchIff`, `TtyInput.LeaseReceivesItsBytes`,
  `TtyInput.InterruptedIff`.
- Round trips and folds: `ShellQuote.QuotingRoundTrips`, `ShellQuote.GeneratedCommandIsLiteral`,
  `ShellQuote.RedirectSplits`, `FileChanges.IncrementalIsBatch`, `FileChanges.AccountIsTotal`,
  `RetryTiming.DoRequests`.

## Where the code falls short of a tempting promise

Each of these is proved by an input, or a family of inputs, on which the promise fails; beside it stands the
condition under which it holds.

- A run that starts and ends between the load and the claim checkpoint leaves a claim record that every later
  check refuses (`ApprovalJournal.InterleavedRunBreaksClaimPending`, `ClaimPendingAccepted`).
- A preparation that dies between its claim_pending record and the claim itself cannot be retried, although
  nothing ran: the receipt is bound to a generation that state.json never got
  (`ApprovalJournal.UnmadeClaimIsRefused`). Nor can one that dies after its failed admission was saved and
  before that was recorded (`RetryAfterFailedAdmission`; exactly when a retry proceeds: `ProceedIff`).
- A manual stop that comes between the release of the approval lock and the save of an execution error is
  overwritten by the failure: the save compares only the run generation (`ApprovalProgress.StopIsOverwritten`;
  exactly when: `ApprovalSafety.FailuresReplaceOwnGeneration`).
- Dropping one of two assistants that share an identity takes the other's result
  (`ReplayClosure.SharedIdentityLosesResult`; exactly when: `RetainedCallLosesIffShared`).
- A replay pointer may print an identity that two calls of the view carry (`HardFit.PrintedIdentityMayBeShared`;
  only where: `PrintedIdentityShared`).
- With a window of the largest integer the saturated sum hides every excess
  (`RequestBudget.SaturationHidesExcess`, `FitMeaning`).
- The recent windows record the raw identity of a pending result but look the trimmed one up, so an identity
  written with surrounding white space loses its issuer (`RecentWindow.UntrimmedLosesIssuer`, `KeepsIssuer`).
- With two or more publishers an event may overtake the notice of an earlier drop, whatever the capacity
  (`EventBus.TwoPublishersTellLate`; exactly when: `TellsFirstIffAlone`).
- A child run is charged the same time twice when a save failed and could not be undone; too little when it dies
  later than an interval after its last charge; never for what it does after a closing save of that kind until
  it dies; and too little by the fraction of a millisecond beyond the first (`ChildBudget.StuckChargesTwice`,
  `LateCrashChargesTooLittle`, `StuckCloseLosesTime`, `TruncationChargesTooLittle`, for every interval; exactly
  when: `NeverTooMuchIff`, `NeverTooLittleIff`, `ExactIff`, `ChargeCoversIff`).
- The link fallback can remove a file's last name if another process removes the target between its link and its
  unlink, or the source between its check and the rollback (`LinkRename.UnlinkRace`, `RollbackRace`; exactly
  when: `Rename`, `Resolve`).
- The tokenizer loses empty words (`ShellQuote.TokensOfLine`, `QuotingRoundTrips`).
- A tool name written with blanks around it passes the filter of file-changing tools, waits for its result, and
  then counts for nothing (`FileChanges.EffectsMeaning`; exactly which names count is stated there).
- The backoff ceiling of the first attempt is not capped at 30 seconds, although the comment beside it says so
  (`RetryTiming.FirstCeiling`), and without a server wait the caller's deadline is not consulted
  (`LocalDelayIgnoresDeadline`; exactly when a wait ends in time: `AdmittedWaitBounds`).

## Model

| member | source | states |
|---|---|---|
| `ApprovalSafety.ProviderStartsAtMostOnce` | internal/runtime/approval_receipts.go:485-693 | over every interleaving of prepares, retries, aliases, aborts, runs, crashes and host failures, two provider starts belong to two different operations and to two different reviewed targets |
| `ApprovalSafety.StartedIsDurablyAdmitted` | internal/runtime/approval_receipts.go:655-692 | whatever was started had been admitted, and stays admitted in what a host failure brings back |
| `ApprovalSafety.ReceiptsStayReadable` | internal/runtime/approval_receipts.go:319-398 | in every reachable ledger, live and durable, a receipt in a phase from prepared on (prepared, executing, review_required, settled, aborted, admitted) holds a record that the recovery check accepts; prepare_failed records are the subject of WrittenRecordsAreAccepted |
| `ApprovalSafety.WrittenRecordsAreAccepted` | internal/runtime/approval_receipts.go:319-398 | in every run, each record that an admission failure (prepare_failed or aborted), an execution, a review, an abort or a settlement writes passes the recovery check, whatever becomes of the write |
| `ApprovalSafety.PublishedIsNoted` | internal/runtime/approval.go:316-357 | the records of that history are the ones the ledger receives |
| `ApprovalSafety.SwapsReplaceOwnClaims` | internal/runtime/approval.go:408-435 | in every run, each state that a compare-and-swap of an admission failure, an execution, a review or an abort replaced was that operation's own unadvanced claim, whatever other writers did between the attempts; the plain save after an execution error is the subject of FailuresReplaceOwnGeneration |
| `ApprovalSafety.FailuresReplaceOwnGeneration` | internal/runtime/runner.go:2906-2915 | in every run, each state that the failure save of an execution error replaced carried that operation's own generation, and was its unadvanced claim exactly when it still was the prepared run the save was built on |
| `ApprovalSafety.ExecutableNeedsItsOwnAdmission` | internal/runtime/approval_receipts.go:655-692 | an executable appears only in the step that turns its prepared receipt into an admitted one; an admission error yields none |
| `ApprovalSafety.SettledReceiptOnlyReplays` | internal/runtime/approval_receipts.go:485-560 | helper: a call that finds an admitted or rejected receipt can only replay it or end |
| `ApprovalSafety.StepKeeps` | internal/runtime/approval.go:39-219 | every step of the machine keeps the whole invariant: journals, calls, executables, tickets, starts and swaps |
| `ApprovalSafety.RunKeeps` | internal/runtime/approval.go:39-219 | the invariant holds at the end of every run |
| `ApprovalProgress.StopIsOverwritten` | internal/runtime/approval.go:182-190 | the failing input: wherever a new request can reach its start there is a run in which the notification fails, the run is stopped by hand, and the failure save replaces the stop, which is not the unadvanced claim |
| `ApprovalProgress.NewRequestReachesItsStart` | internal/runtime/approval_receipts.go:485-693 | the other side of safety: from any reachable state with a free lock, a resumable state.json and a new request with a current target there is a run that creates the receipt, binds the generation at claim_pending, claims the state, records the preparation, admits the operation and starts the provider once for it |
| `ApprovalProgress.NewRequestIsAdmitted` | internal/runtime/runner.go:1048-1070 | the first part: the claim of the resumable state is made between claim_pending and run_claimed, and the executable is handed out unconsumed over it |
| `ApprovalProgress.HandleReachesItsStart` | internal/runtime/approval.go:128-194 | an unconsumed executable of an unadvanced claim can be consumed, checked, swapped, recorded and started |
| `ApprovalExecution.JobAccepted` | internal/runtime/approval_receipts.go:319-398 | each job's swap saves, its record over the saved state is accepted, and it replaced the operation's own claim |
| `ApprovalProtocol.PublishMeaning` | internal/fileutil/atomic_commit.go:50-180 | helper: what each outcome of a ledger write leaves in the file, and what a host failure brings back |
| `ApprovalProtocol.ProcessMayDie` | internal/runtime/approval.go:39-60 | helper: any process may die in any world; exactly its calls are gone, its lock is free, and nothing written is lost |
| `ApprovalProtocol.HostMayFail` | internal/runtime/approval.go:39-60 | helper: the host may fail in any world; only the durable ledger comes back, and no executable made before can be consumed |
| `ApprovalProvenance.ExecutableWasReviewed` | internal/session/approval_receipt.go:812-819 | in every run, each executable was made by an earlier admission, committed, whose snapshot showed the executable's own target as the current plan and open |
| `ApprovalProvenance.StartWasReviewed` | internal/session/approval_receipt.go:812-819 | so was, in every run, each executable that was started |
| `ApprovalProvenance.ReceiptWasReviewed` | internal/session/approval_receipt.go:731-757 | in every run, each receipt in the live or the durable ledger was created by an earlier step for its own request, over a snapshot that showed its target open; only a rejection may ignore a blocked coverage |
| `ApprovalProvenance.StartWasChecked` | internal/runtime/approval.go:148-160 | in every run, before each start the call that makes it looked once more, under the lock and holding the executable, and found its target current, open and approved |
| `ApprovalProvenance.StartWasRecorded` | internal/runtime/approval.go:181-194 | in every run, before each start the same call recorded and committed its execution intent for that executable |
| `ApprovalProvenance.StepTraced` | internal/runtime/approval.go:39-60 | no step changes what an executable was made with, and a call gets hold of one only by consuming it, unconsumed, in the living process it was made in |
| `ApprovalJournal.AdmissionFailureAccepted` | internal/runtime/approval_receipts.go:655-675 | a prepare_failed or aborted record is accepted when the error has a message, and refused when it has none |
| `ApprovalJournal.ExecuteAccepted` | internal/runtime/approval.go:128-194 | the execution record over the rewritten claim is accepted, and the claim is still the prepared run |
| `ApprovalJournal.ReviewAccepted` | internal/runtime/approval.go:282-315 | the review record is accepted exactly when its cause has a message |
| `ApprovalJournal.AbortAccepted` | internal/runtime/approval.go:93-126 | an abort brings the original state back but for its observations, and its record is accepted |
| `ApprovalJournal.SettleAccepted` | internal/runtime/approval.go:195-219 | helper: a settled record is accepted exactly when the final state still carries the operation's generation |
| `ApprovalJournal.WaitingClaimIsOwn` | internal/runtime/approval.go:386-406 | what a prepared claim may become while it waits is still the operation's own unadvanced claim |
| `ApprovalJournal.SwapCommits` | internal/session/state_cas.go:21-71 | a swap against the file's own content saves the next state with refreshed observations and nothing else |
| `ApprovalJournal.ClaimPendingAccepted` | internal/runtime/approval_receipts.go:555-600 | helper: a claim_pending record is accepted exactly when the state read for it is the original one, or this operation's claim |
| `ApprovalJournal.RunClaimedAccepted` | internal/session/claim_generation.go:13-75 | a run_claimed record is accepted exactly when the claimed file agreed with the original on everything a claim keeps |
| `ApprovalJournal.InterleavedRunBreaksClaimPending` | internal/runtime/approval_receipts.go:555-600 | counterexample: a run that starts and ends between the load and the checkpoint leaves a record every later check refuses |
| `ApprovalJournal.ProceedResumes` | internal/runtime/approval_receipts.go:695-785 | a retry that is told to proceed (exactly when: ProceedIff) resumes its own unadvanced claim, and the record it writes next is accepted |
| `ApprovalJournal.RestoreAccepted` | internal/runtime/approval.go:359-381 | a claim that reported an error is undone exactly over the operation's own unadvanced claim or the untouched original; the original comes back up to its observations, and the record is accepted |
| `ApprovalJournal.FailureReplaces` | internal/session/store.go:346-383 | a save compares only the generation: what it replaces carries that generation, and is the unadvanced claim exactly when it still is the run the failure was built on |
| `ApprovalJournal.StateFile.SwapStateIfCurrent` | internal/session/state_cas.go:21-71 | saves only over exactly the expected content, and leaves the file alone otherwise |
| `ApprovalJournal.StateFile.SwapPrepared` | internal/runtime/approval.go:408-435 | under any finite interference at most one swap is made, and what it replaces is the expected run; a conflict is reported only when the file is no longer that run |
| `ApprovalJournal.ProceedIff` | internal/runtime/approval_receipts.go:695-743 | for every accepted record bound to a claim: a retry proceeds exactly when the target is valid, no hook outcome is open, no other owner is alive, and the file is the operation's own unadvanced claim in a phase of the preparation, or, after prepare_failed, that claim marked failed with the recorded cause, which the record captured |
| `ApprovalJournal.RetryAfterCrash` | internal/runtime/approval_receipts.go:695-785 | a preparation that dies at any checkpoint after its claim, from claim_pending to prepared, is told to proceed over the claim it left, whatever was observed there since, and resumes from exactly that file |
| `ApprovalJournal.RetryAfterFailedAdmission` | internal/runtime/approval_receipts.go:655-675 | a failed admission, once recorded, can be retried and resumes its own claim; the same file under the unwritten record is refused |
| `ApprovalJournal.UnmadeClaimIsRefused` | internal/runtime/approval_receipts.go:716-726 | the failing input: a preparation that dies between its claim_pending record and its claim is refused as belonging to an older generation |
| `ApprovalJournal.UnclaimedRetryNeedsOriginal` | internal/runtime/approval_receipts.go:716-723 | a receipt bound to no generation proceeds exactly on the original state, with target, hook and owner in order |
| `ApprovalJournal.AcceptedStates` | internal/runtime/approval_receipts.go:319-398 | phase by phase, exactly which captured state the recovery check accepts in a record bound to a claim |
| `ApprovalJournal.OwnClaimMeaning` | internal/runtime/approval.go:386-406 | helper: field by field, what an operation's unadvanced claim looks like |
| `ApprovalJournal.SwapIff` | internal/session/state_cas.go:21-71 | a swap saves exactly when the file is readable, still what the writer saw, and a running state does not change the generation; what it saves is given but for the merged skills |
| `ApprovalJournal.MergeSkillsMeaning` | internal/session/store.go:415-444 | the merged skills are the trimmed, non-blank names of both lists, each once, the file's first |
| `ApprovalJournal.ClaimIff` | internal/session/claim_generation.go:13-75 | helper: a claim is made exactly over a readable, resumable file older than its stamp, and leaves that file's own unadvanced claim |
| `ApprovalLedger.BindPublishes` | internal/session/approval_receipt.go:665-697 | no binding writes a ledger that would not read back, and what is published keeps every earlier fact |
| `ApprovalLedger.CreatePublishes` | internal/session/approval_receipt.go:710-760 | the same for creations, rejected or prepared |
| `ApprovalLedger.CheckpointPublishes` | internal/session/approval_receipt.go:762-787 | a checkpoint is refused as unverifiable only when the clock fell behind the receipt |
| `ApprovalLedger.AdmitPublishes` | internal/session/approval_receipt.go:789-828 | with a clock past every receipt an admission is never refused as unverifiable |
| `ApprovalLedger.AdmitEffect` | internal/session/approval_receipt.go:789-828 | an admission of a prepared receipt happens over a snapshot that shows the receipt's target open, from the prepared phase of its own generation, and changes its stage and the index entry of its target, nothing else |
| `ApprovalLedger.CreateEffect` | internal/session/approval_receipt.go:710-760 | a creation that found nothing adds exactly one receipt, given field by field, and its request |
| `ApprovalLedger.CreateBinds` | internal/session/approval_receipt.go:710-760 | every successful creation leaves its request bound to the receipt it answers with |
| `ApprovalLedger.FindIsCanonical` | internal/session/approval_receipt.go:565-589 | a lookup answers with a receipt of the ledger, asks for an alias exactly when the request is unknown, and never offers a rejected receipt to an alias |
| `ApprovalLedger.AnswerIsStable` | internal/session/approval_receipt.go:565-589 | once answered, the same request finds the same operation in every later ledger |
| `ApprovalLedger.OneAdmissionPerTarget` | internal/session/approval_receipt.go:408-505 | two admitted operations never share a target |
| `ApprovalLedger.AdmitIff` | internal/session/approval_receipt.go:789-828 | an admission succeeds exactly when the receipt is bound to the caller's claim and is admitted already, or prepared to the end while the snapshot shows its own target open |
| `ApprovalLedger.AdmittedStands` | internal/session/approval_receipt.go:802-804 | an admitted receipt is answered as it stands, whatever the snapshot shows now |
| `ApprovalLedger.CreateIff` | internal/session/approval_receipt.go:710-760 | a new receipt is made exactly when request and target are named, the snapshot shows that target open, and, unless it is a rejection, coverage does not block it and its recovery is in order |
| `ApprovalLedger.CreateAnswers` | internal/session/approval_receipt.go:716-730 | a creation that finds a receipt answers with it whatever the snapshot shows, and writes at most the alias of the request |
| `ApprovalLedger.FindIff` | internal/session/approval_receipt.go:565-589 | a lookup finds nothing exactly when neither the request nor an admitted or prepared operation of its target is known, and contradicts exactly on other parameters |
| `ApprovalLedger.BindIff` | internal/session/approval_receipt.go:665-697 | when a binding succeeds, and that it adds that one alias and nothing else |
| `ApprovalLedger.CheckpointIff` | internal/session/approval_receipt.go:762-787 | a checkpoint succeeds exactly on a receipt that was not rejected and is bound to the caller's generation, with a usable recovery of that generation; it changes phase, recovery and time alone |
| `FactRepair.RestoreMeaning` | internal/runtime/approval_receipts.go:952-1010 | a repair is refused exactly when some row contradicts a fact; otherwise it appends exactly the missing facts in payload order |
| `FactRepair.RestoreExtends` | internal/runtime/approval_receipts.go:918-1010 | existing rows stay an untouched prefix of every log, even when the repair is refused |
| `FactRepair.RestoreFindsAll` | internal/runtime/approval_receipts.go:952-1010 | every fact of a completed repair is in its log |
| `FactRepair.RestoreNeverDuplicates` | internal/runtime/approval_receipts.go:918-1010 | no repair gives an identity a second row |
| `FactRepair.CrashThenRestore` | internal/runtime/approval_receipts.go:952-1010 | dying after any number of repaired facts and starting over ends in exactly the logs of one uninterrupted repair |
| `FactRepair.RestoreIdempotent` | internal/runtime/approval_receipts.go:952-1010 | repairing twice is repairing once |
| `FactRepair.LogStore.RestoreReloading` | internal/runtime/approval_receipts.go:918-950 | the loop that reads the log again before every fact is that repair, up to the point where it dies |
| `FactRepair.LogStore.RestoreFromSnapshot` | internal/runtime/approval_receipts.go:960-1010 | for distinct facts, reading the log once is the same repair |
| `FactRepair.LogStore.RestoreAll` | internal/runtime/approval_receipts.go:952-1010 | messages, events, plan and goal histories in order, and a prefix of them when it dies |
| `ReplayClosure.RetainedResultKeepsIssuers` | internal/runtime/request_budget.go:590-715 | no retained tool result loses an assistant that issued its identity |
| `ReplayClosure.RetainedCallKeepsResults` | internal/runtime/request_budget.go:590-715 | with disjoint identities a retained call keeps every later result |
| `ReplayClosure.ResultStaysIffUnanswered` | internal/runtime/request_budget.go:590-715 | for any view and removal, a result block stays exactly when it does not answer the dropped assistant, or, where none is dropped, when its message is not the one removed |
| `ReplayClosure.RetainedCallLosesIffShared` | internal/runtime/request_budget.go:590-715 | for any view and removal, a retained call loses a later result exactly when the dropped assistant issued the same identity |
| `ReplayClosure.SharedIdentityLosesResult` | internal/runtime/request_budget.go:630-667 | the smallest instance: two assistants share an identity that one tool message answers, and dropping the first takes the result of the second, which stays without it |
| `ReplayClosure.DropRemovesAnswers` | internal/runtime/request_budget.go:694-715 | after a drop no result that answers the dropped assistant is left, in mixed messages too |
| `ReplayClosure.DropKeepsOthers` | internal/runtime/request_budget.go:694-715 | a drop takes nothing but matching results from a mixed message |
| `ReplayClosure.KeptMeaning` | internal/runtime/request_budget.go:694-715 | a removal is an order-preserving embedding: which messages stay and where, given what is left of each |
| `ReplayClosure.RemovalShortens` | internal/runtime/request_budget.go:519-527 | a removal always leaves fewer messages, so the guard for one that does not is dead |
| `ReplayClosure.TouchedDetermines` | internal/runtime/request_budget.go:511-517 | closures that touch the same messages are equal, so skipping a seen signature skips nothing else |
| `ReplayClosure.CloseAssistant` | internal/runtime/request_budget.go:630-667 | the loop builds exactly the closure of an assistant, and the empty one when there is no assistant |
| `ReplayClosure.CloseMessage` | internal/runtime/request_budget.go:590-628 | the loops build exactly the closure of any message, and the empty one out of range |
| `ReplayClosure.Remove` | internal/runtime/request_budget.go:694-715 | the loop is the removal the lemmas are about |
| `ReplayClosure.IssuedMeaning` | internal/runtime/compaction.go:703-734 | the identities a message issues are those of its calls, its own and the provider's, and of its provider blocks that are calls; never a blank one |
| `ReplayClosure.OwnerMeaning` | internal/runtime/request_budget.go:590-628 | a message belongs to itself, if an assistant, or to the nearest issuer of its first result that has one before it |
| `ReplayClosure.GoneIff` | internal/runtime/request_budget.go:590-715 | for any view and removal, exactly which messages go: the assistant, and the tool messages that answer nothing else, unless they have a text of their own and answer one identity twice; or the message alone when it belongs to no assistant |
| `ReplayClosure.KeepResultsEmbeds` | internal/runtime/request_budget.go:700-707 | the results kept of a mixed message are all that do not match, in order |
| `Protection.ProtectedMoves` | internal/runtime/request_budget.go:541-588 | after a removal that touches nothing protected, exactly the same messages are protected |
| `Protection.DropKeepsKernel` | internal/runtime/request_budget.go:504-588 | every protected message survives a drop unchanged and in order, and no other becomes protected |
| `Protection.DropEmbeds` | internal/runtime/request_budget.go:504-588 | a drop keeps every protected message as it is |
| `Protection.ProtectedIndexes` | internal/runtime/request_budget.go:541-588 | the procedure computes exactly the protected set, which ProtectedMeaning describes message by message |
| `Protection.ProtectedMeaning` | internal/runtime/request_budget.go:541-588 | message by message and without the procedure's parts: protected are the last user message that is no reminder and no summary, the last steer, every system message and summary, the last tool message with results, the nearest earlier issuer of its last identity and all tool messages that answer that issuer, and nothing else |
| `Protection.ClosureMeaning` | internal/runtime/request_budget.go:590-667 | what goes with a message: its assistant and all that answers that one, or itself alone |
| `Protection.DroppableMeaning` | internal/runtime/request_budget.go:504-517 | a message may be dropped exactly when neither it nor anything that goes with it is protected |
| `Survival.DropSurvives` | internal/runtime/request_budget.go:504-715 | a drop keeps protected messages, the issuers of every retained result and, without shared identities, the results of every retained call |
| `RequestBudget.SaturatingAdd` | internal/runtime/request_budget.go:930-943 | the loop adds left to right and stops at the first overflow |
| `RequestBudget.SaturatedIsSum` | internal/runtime/request_budget.go:930-943 | for values that are not negative it is the exact sum cut at the largest integer |
| `RequestBudget.FitMeaning` | internal/runtime/request_budget.go:169-258 | a view fits exactly when ceil(bytes/4) plus reserve plus headroom is at most the window, for a window below the largest integer; at the largest integer it always fits |
| `RequestBudget.SaturationHidesExcess` | internal/runtime/request_budget.go:248-252 | counterexample at the largest integer: a view that needs more than its window is taken to fit |
| `RequestBudget.Preflight` | internal/runtime/request_budget.go:169-258 | an accepted or exceeded verdict comes only from a sound estimate, whose size it reports |
| `RequestBudget.PolicyMeaning` | internal/runtime/request_budget.go:140-167 | the configured window, reserve and usable share and their defaults; the headroom is what the share leaves, rounded up |
| `RequestBudget.PreflightMeaning` | internal/runtime/request_budget.go:169-258 | every field of the report for a sound estimate, and which failure is reported otherwise |
| `RequestBudget.TokensMeaning` | internal/runtime/request_budget.go:236-241 | helper: the fewest tokens that cover the bytes at four a token |
| `RequestBudget.SubtractMeaning` | internal/runtime/request_budget.go:945-954 | helper: the exact difference, cut at the largest integer and its negative |
| `HardFit.IndexCalls` | internal/runtime/tool_result_dedup.go:86-110 | an identity is in the index exactly when it names one call of the view, and ambiguous when it names more |
| `HardFit.PointerizeResult` | internal/runtime/request_budget.go:415-486 | the procedure replaces a result exactly when the rule of PointerMeaning allows it, and only by a shorter pointer |
| `HardFit.PointerStep` | internal/runtime/request_budget.go:415-486 | replacing an output by a replay pointer keeps the view, and the call it refers to is in it |
| `HardFit.DropStep` | internal/runtime/request_budget.go:504-539 | dropping an admitted closure keeps the view, and no remaining pointer dangles |
| `HardFit.SummaryStep` | internal/runtime/request_budget.go:717-774 | rewriting a summary changes nothing but that summary's text |
| `HardFit.PointerMeaning` | internal/runtime/request_budget.go:415-486 | exactly when a result is replaced and by what: untouched, by a shorter text that names its complete artifact, or, for a result that is no error, the only call of its identity, which is read-only and of the same tool |
| `HardFit.PrintedIdentityShared` | internal/runtime/request_budget.go:456-470 | the identity a pointer prints names a second call only where the result answers by the provider's identity and another call carries the call's own |
| `HardFit.PrintedIdentityMayBeShared` | internal/runtime/request_budget.go:456-470 | the failing input: two calls told apart by the provider's identity alone |
| `HardFit.RewrittenIff` | internal/runtime/request_budget.go:717-774 | helper: when a summary is rewritten, and to what |
| `ViewCloning.PointerizeInPlace` | internal/runtime/request_budget.go:415-486 | edited in place in a view that shares nothing, a result becomes the very candidate of the value model, or the edit is refused exactly when there is none, even if it wrote something |
| `ViewCloning.CloneView` | internal/runtime/compaction.go:1100-1134 | the deep clone reads the same and shares no result and no metadata map, neither with the original nor within itself |
| `ViewCloning.Candidate` | internal/runtime/request_budget.go:341-345 | a candidate is made in fresh memory: the caller's view, whatever its results share, reads as before |
| `HardFitLoop.PointersNeverDangle` | internal/runtime/request_budget.go:415-486 | at the end of any number of passes every replay pointer belongs to a result that is no error and names the one call of the final view which that result answers; the call is read-only, of the same tool, and carries the printed identity |
| `HardFitLoop.TryPointerize` | internal/runtime/request_budget.go:389-413 | the oldest result whose pointer makes the body smaller decides the pass; a refusal means that none does |
| `HardFitLoop.TryDrop` | internal/runtime/request_budget.go:504-539 | the oldest droppable closure that makes the body smaller decides the pass; a refusal means that none does, skipped signatures included |
| `HardFitLoop.TrySummary` | internal/runtime/request_budget.go:717-774 | the same for the two summary rewrites |
| `HardFitLoop.PassFits` | internal/runtime/request_budget.go:293-313 | an accepted pass of any phase keeps what every step keeps |
| `HardFitLoop.RunFits` | internal/runtime/request_budget.go:270-338 | a whole run of passes keeps it too |
| `HardFitLoop.RunPhase` | internal/runtime/request_budget.go:300-319 | a phase stops, its actions continue the chain of consecutive, strictly shrinking passes, and it ends only when the view fits, the passes run out, nothing helps, or the estimator fails |
| `HardFitLoop.FitRequest` | internal/runtime/request_budget.go:270-338 | the fit keeps pairs and pointers, every message that may not be dropped stands in the final view with its results in place, success is reported exactly when the final view fits, and it gives up only after 256 passes or when no summary can be reduced |
| `HardFitLoop.InstructionStands` | internal/runtime/request_budget.go:541-548 | after any run of passes the latest external instruction of the view is still its latest one, word for word unless its own text opens with a summary's marker |
| `HardFitLoop.ShieldedStands` | internal/runtime/request_budget.go:504-588 | every message that may not be dropped stands in the later view and is shielded there: only a summary's text and a tool message's outputs may be shorter |
| `RecentWindow.KeepsNewest` | internal/runtime/compaction.go:498-592 | the last minCount messages are kept by both windows |
| `RecentWindow.KeepsInstruction` | internal/runtime/compaction.go:506-508 | the latest external instruction is kept |
| `RecentWindow.KeepsIssuer` | internal/runtime/compaction.go:510-532 | for a kept tool message, the nearest earlier assistant that issued a result's identity is kept, when the identity is written without surrounding white space |
| `RecentWindow.UntrimmedLosesIssuer` | internal/runtime/compaction.go:520-524 | for every identity written with surrounding white space there is a view in which the tool message is kept and its issuer is not: the pending set holds the raw identity |
| `RecentWindow.BudgetedKeepsPlain` | internal/runtime/compaction.go:542-592 | everything the plain window keeps, the budgeted window keeps |
| `RecentWindow.RecentMessages` | internal/runtime/compaction.go:498-540 | the loops over the keep array and the pending set compute that window |
| `RecentWindow.RecentMessagesWithinBudget` | internal/runtime/compaction.go:542-592 | and so do the loops with the character budget |
| `RecentWindow.KeptIff` | internal/runtime/compaction.go:498-592 | exactly which messages a window of a longer view keeps: the latest instruction, every message with fewer than minCount kept after it or with budget left by what is kept after it, and every assistant that carries a call which a kept tool message awaits |
| `RecentWindow.PickEmbeds` | internal/runtime/compaction.go:533-539 | the window is an order-preserving selection of the kept messages |
| `ToolCompaction.CompactOldResults` | internal/runtime/compaction.go:736-809 | every result is treated by its place among all results newest first, and the identities of all that are not recent are collected |
| `ToolCompaction.ReplacedOnlyBeyondLimits` | internal/runtime/compaction.go:756-796 | a plain result is replaced only beyond the count or when keeping it with everything newer would break the byte limit, and then nothing older stays |
| `ToolCompaction.UntouchedWithinLimits` | internal/runtime/compaction.go:737-742 | untouched plain results are at most keepRecent and total at most keepRecentBytes |
| `ToolCompaction.RecentIsNewest` | internal/runtime/compaction.go:756-796 | nothing recent is older than something that is not |
| `ToolCompaction.ReplacementMeaning` | internal/runtime/compaction.go:786-803 | a plain result beyond the limits becomes the pointer to its complete artifact, or else the payload, and nothing else of it changes |
| `JsonCompaction.CutPrefix` | internal/runtime/compaction.go:1061-1072 | the longest prefix within the limit that ends at a rune boundary |
| `JsonCompaction.CutSuffix` | internal/runtime/compaction.go:1074-1086 | the longest suffix within the limit that starts at a rune boundary |
| `JsonCompaction.ValidCut` | internal/runtime/compaction.go:1061-1086 | cutting well-formed UTF-8 at a boundary leaves two well-formed texts |
| `JsonCompaction.PrefixIsNear` | internal/runtime/compaction.go:1061-1072 | the cut gives up at most three bytes of the limit |
| `JsonCompaction.CompactedTextIsShort` | internal/runtime/compaction.go:1031-1044 | a replaced string is strictly shorter, at most 1400 bytes, and left alone the next time |
| `JsonCompaction.CompactedTextIsValid` | internal/runtime/compaction.go:1031-1044 | well-formed text stays well-formed |
| `JsonCompaction.WordingIsProper` | internal/runtime/compaction.go:1043-1043 | the words of the frame are ASCII and leave room for head, tail and a 19-digit count |
| `JsonCompaction.CompactStrings` | internal/runtime/compaction.go:997-1029 | the recursive loops abbreviate every long string (as CompactedTextHolds describes), and report a change exactly when there is one |
| `JsonCompaction.CompactionKeepsShape` | internal/runtime/compaction.go:997-1029 | keys, lengths, numbers and short strings stay; each long string becomes its abbreviation; well-formed strings stay well-formed |
| `JsonCompaction.UnchangedIffShort` | internal/runtime/compaction.go:997-1029 | a value is left alone exactly when none of its strings is long |
| `JsonCompaction.CompactionIsIdempotent` | internal/runtime/compaction.go:997-1029 | compacting twice is compacting once |
| `JsonCompaction.CompactRaw` | internal/runtime/compaction.go:973-995 | raw arguments come back as they were unless decoding, a change and encoding all succeed |
| `JsonCompaction.RawIsIdempotent` | internal/runtime/compaction.go:973-995 | the same idempotence for raw arguments, over any codec for which the compacted value, the one value encoded, reads back without new strings, in whatever order of fields |
| `JsonCompaction.CompactedTextHolds` | internal/runtime/compaction.go:1031-1044 | a long string becomes the opening, the exact count of bytes left out, the words, its longest prefix of at most 700 bytes, the words, and its longest suffix of at most 500, cut at runes, in this order |
| `JsonCompaction.RawMeaning` | internal/runtime/compaction.go:973-995 | raw arguments change exactly when they are one value with a long string that can be encoded again, and then into the encoding of the same value with its long strings abbreviated |
| `Text.DecimalReadsBack` | internal/runtime/compaction.go:1043-1043 | helper: a count in decimal reads back as itself, without leading zeros |
| `EventBus.RunConserves` | internal/events/events.go:110-143 | over every interleaving of any number of publishers the pending count is never negative, drops equal pending plus claimed plus told (but for half-made drops), and calls equal events put in the channel plus drops plus calls under way |
| `EventBus.QuietAccounts` | internal/events/events.go:100-143 | with no publisher inside send: drops are exactly pending plus told, and every event was put in the channel or dropped |
| `EventBus.OnePublisherTellsFirst` | internal/events/events.go:110-138 | with one publisher every event is preceded by notices that count exactly the drops before it |
| `EventBus.TwoPublishersTellLate` | internal/events/events.go:110-138 | for every capacity and every number of publishers from two on there is a run in which an event is put in the channel ahead of the notice of an earlier drop |
| `EventBus.TellsFirstIffAlone` | internal/events/events.go:110-138 | for every capacity, every run tells each drop before the next event exactly when there is at most one publisher |
| `EventBus.BarrierDrains` | internal/app/app.go:2656-2687 | once the renderer saw the barrier, everything accepted before the barrier was published had been rendered ahead of it, once each and in order |
| `EventBus.LosslessRunKeeps` | internal/events/events.go:110-114 | a lossless subscription neither loses nor reorders what it accepted |
| `EventBus.ChannelInOrder` | internal/events/events.go:110-143 | over every interleaving what is in the channel are the last things put there, in order, within its capacity |
| `EventBus.LosslessMoves` | internal/events/events.go:110-114 | until the renderer stops, a waiting publisher's event can be accepted or handed over, or something before it rendered |
| `StrictYaml.Validate` | internal/config/strict_yaml.go:45-51 | for a graph in which no path without repeats is deeper than 64 levels and fewer than 100,000 distinct edges can be reached, the memoised walk accepts exactly what the simple reachability rule does; a depth error shows such a path, a visit error that many edges, any other error a refusal or a cycle that can be reached |
| `StrictYaml.ValidateNode` | internal/config/strict_yaml.go:53-160 | the walk keeps its invariant: what it has validated was finished after everything it leads to; an error is explained by a path from the root |
| `StrictYaml.ValidateMerge` | internal/config/strict_yaml.go:162-210 | the same for merge targets, through aliases and sequences |
| `StrictYaml.Enter` | internal/config/strict_yaml.go:53-84 | the limits, the memo and the cycle check: a repeated active key is a cycle of the graph |
| `StrictYaml.FinishedIsAcceptable` | internal/config/strict_yaml.go:78-88 | if the root was finished, nothing reachable is refused and no path comes back to itself |
| `StrictYaml.ExplainedIsUnacceptable` | internal/config/strict_yaml.go:78-134 | unknown fields, missing alias targets and cycles are never reported of an acceptable graph |
| `StrictYaml.LeadsIff` | internal/config/strict_yaml.go:85-210 | where each kind of node leads, by its type: fields, map values, items, aliases, documents and merges |
| `StrictYaml.RefusesIff` | internal/config/strict_yaml.go:85-134 | what a node refuses: an alias without a target, and of a mapping read as a struct every name that is neither a field nor a merge |
| `AtomicCommit.CommitFile` | internal/fileutil/atomic_commit.go:50-180 | after every effect a crash leaves the complete old or the complete new file; not published means the old entry stands; committed means content and entry are durable, and with the chain synced every entry above; when nothing fails it succeeds exactly when every byte was taken, and a short write never publishes |
| `AtomicCommit.CrashLeavesOldOrNew` | internal/fileutil/atomic_commit.go:50-180 | what can be read after a crash at a safe point could be read before, or is the complete new content |
| `AtomicCommit.SyncChain` | internal/fileutil/atomic_commit.go:84-101 | syncing from the parent to the root settles every entry on the way and leaves the target alone |
| `AtomicCommit.Stage` | internal/fileutil/atomic_commit.go:102-127 | creating, writing and syncing the temporary never touches the target, and success means its whole content is synced |
| `AtomicCommit.RenamePublishes` | internal/fileutil/atomic_commit.go:128-147 | the rename publishes only a complete, synced file |
| `AtomicCommit.Confirm` | internal/fileutil/atomic_commit.go:148-178 | committed only after the directory sync; an error before it is unconfirmed |
| `LinkRename.Rename` | internal/fileutil/safe.go:267-304 | undisturbed, it renames, or leaves both names, or changes nothing, and says which; without failures the verdict is exact, and a failed unlink alone is rolled back; it removes a last name exactly when the unlink, or the rollback, finds no other name, so never while nobody acts between link and unlink or between source check and rollback |
| `LinkRename.Resolve` | internal/fileutil/safe.go:327-365 | after a failed unlink the source name's state decides: gone or another file means renamed, unreadable means unverified; otherwise a rollback, which takes a last name exactly when the target is the only one left |
| `LinkRename.RollBack` | internal/fileutil/safe.go:370-382 | the link is removed only while it still is the linked file, and exactly when that removes a last name is stated |
| `LinkRename.RollbackRace` | internal/fileutil/safe.go:327-382 | counterexample: a process that removes the source after its check makes the rollback remove the file's last name |
| `LinkRename.UnlinkRace` | internal/fileutil/safe.go:267-304 | counterexample: a process that removes the target between the link and the unlink makes the rename report success and remove the file's last name |
| `ChildBudget.AccountBalances` | internal/runtime/budget.go:129-186 | over every run of events the charged time balances exactly with true active time, losses, rounding, recoveries and stuck saves |
| `ChildBudget.ChargedWithinBounds` | internal/runtime/budget.go:451-486 | when nothing stuck and deaths come within an interval of the last charge, the charge is the true time give or take under a millisecond a charge, and at most one interval a crash too much |
| `ChildBudget.WholeChargesAreTwoSided` | internal/runtime/budget.go:129-186 | with charges of whole milliseconds: at least the true time and at most one interval a crash more |
| `ChildBudget.WithoutCrashesExact` | internal/runtime/budget.go:451-486 | without crashes whole charges telescope: what is charged is the active time up to the last charge and what got stuck, so it is exact exactly when nothing is stuck, whatever other saves failed |
| `ChildBudget.NeverTooLittleIff` | internal/runtime/budget.go:129-186 | for every interval, every run that has ended, with at most n stuck saves, deaths within d of the last charge and charges not rounded down, is charged at least its true time, if and only if d is zero, or nothing sticks and d is at most the interval |
| `ChildBudget.NeverTooMuchIff` | internal/runtime/budget.go:451-503 | for every interval, every run whose charges are not rounded up is charged at most its true time and an interval a crash, however late it dies, if and only if no save may get stuck |
| `ChildBudget.ExactIff` | internal/runtime/budget.go:451-503 | every run without crashes and with whole charges is charged exactly, if and only if no save may get stuck |
| `ChildBudget.ClosingTwice` | internal/runtime/budget.go:364-396 | helper: closing twice, pausing or checkpointing after closing adds nothing |
| `ChildBudget.StuckChargesTwice` | internal/runtime/budget.go:488-503 | the failing family: whatever the interval, a closing save that gets stuck and is made again charges its time twice |
| `ChildBudget.LateCrashChargesTooLittle` | internal/runtime/budget.go:138-148 | the failing family: whatever the interval, a run that dies d after its last charge, d longer than the interval, is charged the interval alone |
| `ChildBudget.StuckCloseLosesTime` | internal/runtime/budget.go:451-503 | the failing family: after a closing save that got stuck, whatever the run does until it dies is never charged, by no later recovery either |
| `ChildBudget.TruncationChargesTooLittle` | internal/session/budget.go:109-122 | the failing family: a run charged once is charged at least its time exactly when that is whole milliseconds or less than one |
| `ChildBudget.ChargeIsClose` | internal/session/budget.go:109-122 | a charge is within a millisecond of the elapsed time, and exact for whole milliseconds |
| `ChildBudget.ChargeCoversIff` | internal/session/budget.go:109-122 | a charge covers the elapsed time exactly when that is whole milliseconds or less than one, and does not exceed it exactly when it is zero or at least one millisecond |
| `ChildBudget.BudgetRun.BeginRun` | internal/runtime/budget.go:129-186 | opening a lease, with the recovery charge, in every outcome of the saves |
| `ChildBudget.BudgetRun.CheckpointActiveRuntime` | internal/runtime/budget.go:274-304 | a checkpoint charges an active run only, and a failed one keeps the time to be charged later |
| `ChildBudget.BudgetRun.SettleRun` | internal/runtime/budget.go:364-449 | settling closes the account once |
| `TtyInput.OneActiveLease` | internal/app/tty_input.go:95-148 | at most one prompt holds an active lease in every interleaving |
| `TtyInput.LeaseReceivesItsBytes` | internal/app/tty_input.go:95-148 | a lease receives in order exactly the consecutive bytes taken while it was active, but for at most the one in hand at the end |
| `TtyInput.NoByteGivenTwice` | internal/app/tty_input.go:95-148 | no byte falls to two leases |
| `TtyInput.InterruptsOnce` | internal/app/tty_input.go:95-148 | the interrupt callback fires at most once, and the dispatcher has returned after it |
| `TtyInput.EscapeInterrupts` | internal/app/tty_input.go:110-118 | an Esc taken without a lease interrupts |
| `TtyInput.ReadLine` | internal/app/tty_input.go:196-213 | the line is everything before the first line end, which is consumed |
| `TtyInput.InterruptedIff` | internal/app/tty_input.go:95-148 | in every run the callback has fired exactly when an Esc was taken without a lease, or was in hand when its lease was released |
| `TtyInput.TakenWithoutLease` | internal/app/tty_input.go:98-118 | a byte taken without a lease is kept by nobody: an Esc interrupts, any other byte changes nothing else |
| `TtyInput.ReleaseDecides` | internal/app/tty_input.go:120-146 | a release ends the lease with what it received; a byte in hand goes to nobody, and interrupts exactly when it is an Esc |
| `TtyInput.PromptReads` | internal/app/tty_input.go:95-148 | an idle dispatcher grants a lease and hands it whatever bytes come next |
| `ShellQuote.QuotingRoundTrips` | internal/app/app.go:2566-2568 | tokenizing space-joined quoted words gives the words back exactly when none is empty |
| `ShellQuote.TokensOfLine` | internal/filechanges/shell.go:154-215 | in general it gives the words without the empty ones |
| `ShellQuote.Tokenize` | internal/filechanges/shell.go:154-215 | the cursor loop computes the scan the round trip is about |
| `ShellQuote.GeneratedCommandIsLiteral` | internal/app/app.go:2570-2582 | for a path with a dollar sign, substitution changes nothing in the generated script and the script's tokens are exec, /bin/sh and the path |
| `ShellQuote.HookCommand` | internal/app/app.go:2570-2582 | the command generated for a path with and without a dollar sign |
| `ShellQuote.GuardedIsUnchanged` | internal/hooks/manager.go:502-520 | substitution leaves text alone in which no dollar sign is followed by a capital letter |
| `ShellQuote.BlankSplits` | internal/filechanges/shell.go:154-215 | outside quotes a blank separates words: the tokens are those of both sides |
| `ShellQuote.SeparatorSplits` | internal/filechanges/shell.go:196-208 | so does a separator, which is no token, but for the ampersand of an operator and the bar of one |
| `ShellQuote.RedirectSplits` | internal/filechanges/shell.go:187-243 | a redirect operator ends the word before it and is a token, and so is its target, even one that begins with an ampersand |
| `ShellQuote.EscapeScan` | internal/filechanges/shell.go:160-172 | helper: an escaped character stands for itself outside single quotes |
| `ShellQuote.DoubleQuotedScan` | internal/filechanges/shell.go:173-180 | helper: in double quotes everything but the quote and the escape stands for itself |
| `ShellQuote.SubstituteMeaning` | internal/hooks/manager.go:502-520 | the leftmost variable is replaced by its value, which is not looked at again, and the rest in the same way |
| `FileChanges.FromMessages` | internal/filechanges/filechanges.go:219-225 | the batch summary is also what merging call by call gives, with distinct, trimmed, non-blank paths |
| `FileChanges.IncrementalIsBatch` | internal/filechanges/filechanges.go:229-265 | folding Merge over FromCall of each resolved successful call gives the batch list: same paths, order and counts |
| `FileChanges.MergeAssociates` | internal/filechanges/filechanges.go:241-265 | Merge is associative on lists with distinct, trimmed, non-blank paths |
| `FileChanges.CountedAtMostOnce` | internal/filechanges/filechanges.go:62-85 | no call is counted more often than it was made |
| `FileChanges.Merge` | internal/filechanges/filechanges.go:241-265 | the loop with its index map is that merge |
| `FileChanges.FromCall` | internal/filechanges/filechanges.go:229-236 | a single call's changes, none for a failed or non-mutating one |
| `FileChanges.Collector.ApplyCall` | internal/filechanges/filechanges.go:87-136 | the collector's list becomes the list merged with what the call did |
| `FileChanges.Collector.AddMessage` | internal/filechanges/filechanges.go:62-85 | calls wait under their identity, results resolve each at most once, failures count for nothing |
| `FileChanges.EffectsMeaning` | internal/filechanges/filechanges.go:87-136 | what each tool contributes: lines written, the difference of an edit as added or removed but not both, and one change for each redirect |
| `FileChanges.ResolvedMeaning` | internal/filechanges/filechanges.go:62-85 | over the stream of calls and results, exactly the successful results that find a waiting call count, each with the latest waiting call of its identity |
| `FileChanges.StreamResolves` | internal/filechanges/filechanges.go:219-225 | helper: the batch is that stream |
| `FileChanges.AccountIsTotal` | internal/filechanges/filechanges.go:138-153 | the account of each path is the sum of what every counted call did to it |
| `RetryTiming.ParseRetryAfter` | internal/provider/http.go:260-286 | digits of any length parse to min(n * 10^9, 2^63 - 1), as section 10.2.3 of RFC 9110 asks; dates in the past and other text give zero |
| `RetryTiming.Ceiling` | internal/provider/types.go:358-376 | from the second attempt on, min(base * 2^(attempt-1), 30 s) without overflow |
| `RetryTiming.FirstCeiling` | internal/provider/types.go:358-365 | the first attempt is not capped: its ceiling is within 30 s exactly when the base is |
| `RetryTiming.RetryDelay` | internal/provider/types.go:378-389 | the delay is one more than the number drawn below the exact ceiling: positive and within it |
| `RetryTiming.AdmittedWaitBounds` | internal/provider/http.go:203-250 | an admitted wait is at least the server's wait and the local delay, at most max(37.5 s, local delay), and over before the caller's deadline exactly when the server asked for a wait or the local delay by itself is |
| `RetryTiming.LocalDelayIgnoresDeadline` | internal/provider/http.go:203-210 | the failing family: without a server wait, every local delay no shorter than the time left, however much that is, is admitted |
| `RetryTiming.DoRequests` | internal/provider/http.go:36-111 | at most max(1, MaxAttempts) requests; every one but the last failed in a way worth retrying and was followed by exactly the wait that admission gives for its failure; a refusal is the one admission gives for the last, and every other verdict is about the last too |
| `RetryTiming.AdmitMeaning` | internal/provider/http.go:203-250 | what is admitted, case by case: the local delay without a server wait; otherwise the server's wait and a bounded draw, or the local delay if longer, if it ends before the deadline; and nothing beyond thirty seconds |
| `RetryTiming.ShouldRetryIff` | internal/provider/types.go:336-354 | rate limits, failures from status 500 on, and timeouts and connections without a status are retried, each exactly under its own setting |

## Left out

- Approval preparation: the hooks and state transitions between the checkpoints of one preparation are left open, so the records of those checkpoints, a prepare_failed written while still preparing included, may hold anything, and only the prepared one is checked, as in the code; the protocol machine lets every retry of a prepared receipt go on, where the code also turns some away, so its safety results cover more runs than the code has.
- Request fingerprints and target keys are compared as the values they are digests of: digests are taken to be free of collisions.
- Errors are taken to have a message where a record stores one; the lemmas say what happens when one has not.
- The compare-and-swap loop is proved under any finite interference; unbounded interference could keep it busy for ever.
- The process bookkeeping `recovered` of the recovery journal, the delegation of approvals to child sessions and the user-facing descriptions of receipts.
- Provider adapters: the estimate of a view, the wording of pointers, the rewriting of a summary's JSON and the canonical form of read-only tool arguments are arbitrary functions of their inputs.
- Hard-fit actions carry their kind, pass, sizes and count, not the identities they affected; snapshots carry no labels, request identities or blocking components.
- The utilization factor of the window is an exact rational where the code multiplies a 64-bit float.
- The hard-fit loop works on views as values; `ViewCloning` ties the pointerizing edits to memory. Drops and summary rewrites, which share results without writing to them, or replace a message's text, stay on values, and so do tool calls, content blocks and the metadata of messages, which no step of a fit edits.
- Identifiers are pairs of what was written and its trimmed form; the marker line of a summary is a flag.
- Selection of the tool calls whose arguments are compacted, the counters of compacted results, and the text heuristics of summaries.
- Artifact naming by time and the choice of dropped messages for the semantic summary.
- The JSON and YAML codecs: a decoded value and a node graph are the input; the model takes the known fields of a type as given (types are finite trees, so a struct type that contains itself cannot be expressed), and not the reading of struct tags or the text of error paths.
- `AtomicCommit.CommitFile`: other processes do not change the directories during one commit; opening the chain of directories by path and setting permissions are not modelled.
- Link fallback: regular files only; directories are refused before it.
- `ChildBudget.BudgetRun.BeginRun`: the interval is one constant and the limit is on, without timers and turn counts.
- Terminal: raw mode and its restoration, and the goroutine that reads the device.
- Shell: here-documents and real redirection semantics, which a tokenizer that drops quotes cannot decide; recording of missing hook variables, bounded hook output, and the reordering of interspersed flags.
- File changes: resolution of a path in the workspace and extraction of a command's redirects are functions given to the collector.
- Retry: HTTP transport, error classification, cutting of error messages, and parsing of dates, whose result is given.
- Environment files: reading and printing assignments.
- Coordination of a parent with its children.
