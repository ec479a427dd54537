/**
  The recovery journal of one approval operation: which captured states a journal record may
  hold, how the compare-and-swap of state.json behaves, and what every writer after preparation
  records (internal/runtime/approval.go, internal/runtime/approval_receipts.go,
  internal/session/state_cas.go).

  A stamp models a canonical timestamp string; 0 is the empty string.
*/
module ApprovalJournal {
  import Text

  type Stamp = nat

  datatype Option<+T> = None | Some(value: T)

  datatype Status = Running | AwaitingInput | Paused | Completed | Cancelled | Failed

  /** state.json. The fields no approval step reads or writes are kept in `rest`. */
  datatype State = State(
    status: Status,
    phase: string,
    turn: nat,
    updatedAt: Stamp,
    runGeneration: Stamp,
    lastError: string,
    idleReason: string,
    pauseReason: string,
    pendingSteer: nat,
    loadedSkills: seq<string>,
    autoResume: nat,
    rest: map<string, string>)

  /** What validateState still has to check once counters are naturals and the status is known. */
  predicate ValidState(s: State) {
    s.updatedAt != 0 && forall i :: 0 <= i < |s.loadedSkills| ==> Text.Trim(s.loadedSkills[i]) != ""
  }

  datatype Phase =
    | Validated | ClaimPending | RunClaimed | PlanExecuting | MissionApproved | ReplayRecorded
    | Prepared | PrepareFailed | Executing | Settled | Aborted | Recovered | ReviewRequired

  /** The part of the journal record the recovery checks read. */
  datatype Record = Record(
    original: State,
    prepared: State,
    phase: Phase,
    completed: Phase,
    lastError: string,
    claim: Stamp)

  // ---------- identity of a prepared run ----------

  /** Equal except for the three observations that may change while a claim waits. */
  predicate SameCore(a: State, b: State) {
    a == b.(updatedAt := a.updatedAt, pendingSteer := a.pendingSteer, loadedSkills := a.loadedSkills)
  }

  predicate SamePreparedRun(expected: State, current: State) {
    && expected.runGeneration != 0 && current.runGeneration == expected.runGeneration
    && expected.status == Running && current.status == Running
    && expected.phase == "prepare" && current.phase == "prepare"
    && current.turn == expected.turn
    && SameCore(expected, current)
  }

  /** The state a claim of `record` leaves behind, before anything advances it. */
  function ExpectedClaim(record: Record): State {
    record.original.(status := Running, phase := "prepare", pauseReason := "", autoResume := 0, runGeneration := record.claim)
  }

  predicate OwnUnadvancedClaim(record: Record, s: State) {
    SamePreparedRun(ExpectedClaim(record), s)
  }

  /** What an operation's unadvanced claim looks like, field by field: only the update stamp, the steer
      count and the loaded skills are free. */
  lemma OwnClaimMeaning(record: Record, s: State)
    ensures OwnUnadvancedClaim(record, s) <==>
              && s.status == Running && s.phase == "prepare" && s.runGeneration == record.claim != 0
              && s.turn == record.original.turn && s.rest == record.original.rest
              && s.lastError == record.original.lastError && s.idleReason == record.original.idleReason
              && s.pauseReason == "" && s.autoResume == 0
  {
    var expected := ExpectedClaim(record);
    assert SameCore(expected, s) <==> s == expected.(updatedAt := s.updatedAt, pendingSteer := s.pendingSteer, loadedSkills := s.loadedSkills);
  }

  predicate Resumable(s: State) {
    s.status == Paused || s.status == AwaitingInput || s.status == Failed || s.status == Completed
  }

  // ---------- the recovery check ----------

  predicate FailedOwnClaim(record: Record) {
    record.prepared.status == Failed && record.prepared.lastError != "" && record.prepared.lastError == record.lastError
  }

  /** The prepared state as the check compares it: a failed own claim is read back as running. */
  function ComparedState(record: Record): State {
    if FailedOwnClaim(record) && (record.phase == PrepareFailed || record.phase == Aborted)
    then record.prepared.(status := Running, lastError := record.original.lastError)
    else record.prepared
  }

  predicate Unadvanced(generation: Stamp, record: Record) {
    && generation != 0 && record.prepared.runGeneration == generation
    && SamePreparedRun(ExpectedClaim(record), ComparedState(record))
    && (record.phase != PrepareFailed || FailedOwnClaim(record))
  }

  /** validateApprovalRecoveryStates: the states a receipt bound to `generation` may have captured. */
  predicate ValidStates(generation: Stamp, record: Record) {
    var isOriginal := SameCore(record.original, record.prepared);
    var claimed := generation != 0 && record.prepared.runGeneration == generation;
    && ValidState(record.original) && ValidState(record.prepared)
    && Resumable(record.original)
    && (record.phase == PrepareFailed || record.phase == record.completed)
    && match record.completed
       case Validated => isOriginal && generation == 0
       case ClaimPending => generation != 0 && (isOriginal || Unadvanced(generation, record))
       case RunClaimed | PlanExecuting | MissionApproved | ReplayRecorded | Prepared | Executing =>
         Unadvanced(generation, record)
       case Aborted => generation != 0 && (isOriginal || (FailedOwnClaim(record) && Unadvanced(generation, record)))
       case ReviewRequired =>
         && claimed
         && record.prepared.status == AwaitingInput && record.prepared.phase == "plan_approval"
         && record.prepared.idleReason == "approval_content_changed"
         && record.prepared.lastError != "" && record.prepared.lastError == record.lastError
         && OwnUnadvancedClaim(record, record.prepared.(status := Running, phase := "prepare",
              idleReason := record.original.idleReason, lastError := record.original.lastError))
       case Settled => claimed
       case Recovered => (isOriginal && generation != 0) || claimed
       case PrepareFailed => false
  }

  /** decodeApprovalRecovery's checks that concern identity: the claim is the bound generation. */
  predicate ValidJournal(generation: Stamp, record: Record) {
    && (generation != 0 ==> record.claim == generation)
    && ValidStates(generation, record)
  }

  // ---------- the compare-and-swap of state.json ----------

  function AppendSkill(acc: seq<string>, value: string): seq<string> {
    var name := Text.Trim(value);
    if name == "" || name in acc then acc else acc + [name]
  }

  function AppendSkills(acc: seq<string>, values: seq<string>): (r: seq<string>)
    decreases |values|
  {
    if values == [] then acc else AppendSkills(AppendSkill(acc, values[0]), values[1..])
  }

  /** mergeLoadedSkills: trimmed, non-blank, without repeats, current before next. */
  function MergeSkills(current: seq<string>, next: seq<string>): seq<string> {
    AppendSkills(AppendSkills([], current), next)
  }

  datatype SwapResult = Saved(committed: State) | NotSaved | Refused

  /** SwapStateIfCurrent once state.lock is held: `steer` is the durable steer count if there is one. */
  function SwapState(file: State, expected: State, next: State, now: Stamp, steer: Option<nat>): SwapResult {
    if !ValidState(file) then Refused
    else if file != expected then NotSaved
    else if next.status == Running && next.runGeneration != 0 && next.runGeneration != file.runGeneration then Refused
    else
      var kept := if next.status == Running then next.(runGeneration := file.runGeneration) else next;
      var committed := kept.(
        updatedAt := now,
        loadedSkills := MergeSkills(file.loadedSkills, kept.loadedSkills),
        pendingSteer := if steer.Some? then steer.value else kept.pendingSteer);
      if ValidState(committed) then Saved(committed) else Refused
  }

  predicate NoBlanks(values: seq<string>) {
    forall i :: 0 <= i < |values| ==> Text.Trim(values[i]) != ""
  }

  lemma AppendSkillNoBlanks(acc: seq<string>, value: string)
    requires NoBlanks(acc)
    ensures NoBlanks(AppendSkill(acc, value))
  {
    Text.TrimIdempotent(value);
    var name := Text.Trim(value);
    var next := AppendSkill(acc, value);
    forall i | 0 <= i < |next|
      ensures Text.Trim(next[i]) != ""
    {
      assert i < |acc| ==> next[i] == acc[i];
    }
  }

  lemma {:induction false} AppendSkillsNoBlanks(acc: seq<string>, values: seq<string>)
    requires NoBlanks(acc)
    ensures NoBlanks(AppendSkills(acc, values))
    decreases |values|
  {
    if values == [] {
    } else {
      AppendSkillNoBlanks(acc, values[0]);
      AppendSkillsNoBlanks(AppendSkill(acc, values[0]), values[1..]);
    }
  }

  lemma AppendSkillsKeeps(acc: seq<string>, values: seq<string>)
    ensures acc <= AppendSkills(acc, values)
    decreases |values|
  {
    if values != [] {
      AppendSkillsKeeps(AppendSkill(acc, values[0]), values[1..]);
    }
  }

  lemma {:induction false} AppendSkillsMembers(acc: seq<string>, values: seq<string>, name: string)
    ensures name in AppendSkills(acc, values) <==>
              name in acc || (name != "" && exists i :: 0 <= i < |values| && name == Text.Trim(values[i]))
    decreases |values|
  {
    if values != [] {
      var next := AppendSkill(acc, values[0]);
      AppendSkillsMembers(next, values[1..], name);
      assert forall i :: 0 <= i < |values[1..]| ==> values[1..][i] == values[i + 1];
      assert forall i :: 0 < i < |values| ==> values[i] == values[1..][i - 1];
    }
  }

  predicate Distinct(values: seq<string>) {
    forall i, j :: 0 <= i < j < |values| ==> values[i] != values[j]
  }

  lemma {:induction false} AppendSkillsDistinct(acc: seq<string>, values: seq<string>)
    requires Distinct(acc)
    ensures Distinct(AppendSkills(acc, values))
    decreases |values|
  {
    if values != [] {
      AppendSkillsDistinct(AppendSkill(acc, values[0]), values[1..]);
    }
  }

  /** The merged skills are the trimmed, non-blank names of both lists, each once, the file's first. */
  lemma MergeSkillsMeaning(current: seq<string>, next: seq<string>, name: string)
    ensures name in MergeSkills(current, next) <==>
              && name != ""
              && ((exists i :: 0 <= i < |current| && name == Text.Trim(current[i]))
                  || (exists i :: 0 <= i < |next| && name == Text.Trim(next[i])))
    ensures Distinct(MergeSkills(current, next)) && MergeSkills(current, []) <= MergeSkills(current, next)
  {
    AppendSkillsMembers([], current, name);
    AppendSkillsMembers(AppendSkills([], current), next, name);
    AppendSkillsDistinct([], current);
    AppendSkillsDistinct(AppendSkills([], current), next);
    AppendSkillsKeeps(AppendSkills([], current), next);
  }

  /** When a compare-and-swap saves: the file is readable and still what the writer saw, and a running
      state does not change the generation. What it saves is stamped with the clock and the durable
      steer count, keeps the file's generation while running, and is `next` otherwise. */
  lemma SwapIff(file: State, expected: State, next: State, now: Stamp, steer: Option<nat>)
    requires now != 0
    ensures SwapState(file, expected, next, now, steer).Saved? <==>
              && ValidState(file) && file == expected
              && (next.status == Running ==> next.runGeneration in {0, file.runGeneration})
    ensures SwapState(file, expected, next, now, steer).NotSaved? <==> ValidState(file) && file != expected
    ensures SwapState(file, expected, next, now, steer).Saved? ==>
              var committed := SwapState(file, expected, next, now, steer).committed;
              && ValidState(committed) && committed.updatedAt == now
              && committed.pendingSteer == (if steer == None then next.pendingSteer else steer.value)
              && committed.runGeneration == (if next.status == Running then file.runGeneration else next.runGeneration)
              && SameCore(next.(runGeneration := committed.runGeneration), committed)
  {
    AppendSkillsNoBlanks([], file.loadedSkills);
    AppendSkillsNoBlanks(AppendSkills([], file.loadedSkills), next.loadedSkills);
  }

  /** A compare-and-swap against the file's own content saves `next` with refreshed observations only. */
  lemma SwapCommits(file: State, next: State, now: Stamp, steer: Option<nat>)
    requires ValidState(file) && now != 0
    requires next.status == Running ==> next.runGeneration == file.runGeneration
    ensures SwapState(file, file, next, now, steer).Saved?
    ensures SameCore(next, SwapState(file, file, next, now, steer).committed)
    ensures ValidState(SwapState(file, file, next, now, steer).committed)
  {
    AppendSkillsNoBlanks([], file.loadedSkills);
    AppendSkillsNoBlanks(AppendSkills([], file.loadedSkills), next.loadedSkills);
  }

  /** SaveState: only the run generation is compared, and only observations are merged. */
  function SaveState(file: State, next: State, now: Stamp, steer: Option<nat>): SwapResult {
    var stamped := next.(updatedAt := now, pendingSteer := if steer.Some? then steer.value else next.pendingSteer);
    if !ValidState(stamped) || stamped.runGeneration != file.runGeneration then Refused
    else
      var saved := stamped.(loadedSkills := MergeSkills(file.loadedSkills, stamped.loadedSkills));
      if ValidState(saved) then Saved(saved) else Refused
  }

  // ---------- the writers after preparation ----------

  /** checkpointApprovalOperation's change to the in-memory record. */
  function Checkpointed(record: Record, phase: Phase, state: State): Record {
    record.(phase := phase, prepared := state, completed := if phase == PrepareFailed then record.completed else phase)
  }

  /** The claim marked failed by an admission error. */
  function FailedClaim(current: State, cause: string): State {
    current.(status := Failed, phase := "prepare", lastError := cause)
  }

  function ReviewClaim(current: State, cause: string): State {
    current.(status := AwaitingInput, phase := "plan_approval", idleReason := "approval_content_changed", lastError := cause)
  }

  /** A record that passed the check `prepared` is written under: the executable's starting point. */
  predicate PreparedJournal(generation: Stamp, record: Record) {
    record.phase == Prepared && record.completed == Prepared && generation != 0 && ValidJournal(generation, record)
  }

  /** What a prepared claim may have become while it waited is still the operation's own claim. */
  lemma WaitingClaimIsOwn(generation: Stamp, record: Record, current: State)
    requires PreparedJournal(generation, record)
    requires SamePreparedRun(record.prepared, current)
    ensures OwnUnadvancedClaim(record, current)
    ensures current.runGeneration == generation
  {
  }

  /** Admission failure: whether reported as prepare_failed or aborted, the record is accepted
      exactly when the error has a message (a claim stamp is minted after the original state was
      loaded, so it is not that state's generation). */
  lemma AdmissionFailureAccepted(generation: Stamp, record: Record, replaced: State, cause: string, uncertain: bool,
                                 now: Stamp, steer: Option<nat>)
    requires PreparedJournal(generation, record)
    requires SamePreparedRun(record.prepared, replaced) && ValidState(replaced) && now != 0
    ensures
      var swapped := SwapState(replaced, replaced, FailedClaim(replaced, cause), now, steer);
      var phase := if uncertain then Aborted else PrepareFailed;
      && swapped.Saved?
      && (cause != "" ==> ValidJournal(generation, Checkpointed(record.(lastError := cause), phase, swapped.committed)))
      && (record.original.runGeneration != record.claim && cause == "" ==>
            !ValidJournal(generation, Checkpointed(record.(lastError := cause), phase, swapped.committed)))
  {
    WaitingClaimIsOwn(generation, record, replaced);
    SwapCommits(replaced, FailedClaim(replaced, cause), now, steer);
    var committed := SwapState(replaced, replaced, FailedClaim(replaced, cause), now, steer).committed;
    var written := Checkpointed(record.(lastError := cause), if uncertain then Aborted else PrepareFailed, committed);
    assert committed.status == Failed && committed.lastError == cause;
    if cause != "" {
      assert FailedOwnClaim(written);
      assert ComparedState(written) == committed.(status := Running, lastError := record.original.lastError);
    }
  }

  /** Execution intent: the claim itself is rewritten, and the record stays accepted. */
  lemma ExecuteAccepted(generation: Stamp, record: Record, replaced: State, now: Stamp, steer: Option<nat>)
    requires PreparedJournal(generation, record)
    requires SamePreparedRun(record.prepared, replaced) && ValidState(replaced) && now != 0
    ensures
      var swapped := SwapState(replaced, replaced, replaced, now, steer);
      && swapped.Saved? && SamePreparedRun(record.prepared, swapped.committed)
      && ValidJournal(generation, Checkpointed(record, Executing, swapped.committed))
  {
    SwapCommits(replaced, replaced, now, steer);
  }

  /** Changed scope: the claim waits for review, and the record is accepted exactly when the cause
      has a message. */
  lemma ReviewAccepted(generation: Stamp, record: Record, replaced: State, cause: string, now: Stamp, steer: Option<nat>)
    requires PreparedJournal(generation, record)
    requires SamePreparedRun(record.prepared, replaced) && ValidState(replaced) && now != 0
    ensures
      var swapped := SwapState(replaced, replaced, ReviewClaim(replaced, cause), now, steer);
      && swapped.Saved?
      && (ValidJournal(generation, Checkpointed(record.(lastError := cause), ReviewRequired, swapped.committed)) <==> cause != "")
  {
    SwapCommits(replaced, ReviewClaim(replaced, cause), now, steer);
  }

  /** Abort: the original state comes back up to its observations, and the record is accepted. */
  lemma AbortAccepted(generation: Stamp, record: Record, replaced: State, now: Stamp, steer: Option<nat>)
    requires PreparedJournal(generation, record)
    requires SamePreparedRun(record.prepared, replaced) && ValidState(replaced) && now != 0
    ensures
      var swapped := SwapState(replaced, replaced, record.original, now, steer);
      && swapped.Saved? && SameCore(record.original, swapped.committed)
      && ValidJournal(generation, Checkpointed(record, Aborted, swapped.committed))
  {
    SwapCommits(replaced, record.original, now, steer);
  }

  /** Settlement accepts whatever the run made of the state, as long as the generation is still its own. */
  lemma SettleAccepted(generation: Stamp, record: Record, cause: string, final: State)
    requires generation != 0 && record.claim == generation
    requires Resumable(record.original) && ValidState(record.original) && ValidState(final)
    ensures ValidJournal(generation, Checkpointed(record.(lastError := cause), Settled, final)) <==>
              final.runGeneration == generation
  {
  }

  lemma SaveGoesThrough(file: State, next: State, now: Stamp)
    requires ValidState(next) && now != 0 && next.runGeneration == file.runGeneration
    ensures SaveState(file, next, now, None).Saved?
  {
    AppendSkillsNoBlanks([], file.loadedSkills);
    AppendSkillsNoBlanks(AppendSkills([], file.loadedSkills), next.loadedSkills);
  }

  /** failBeforeRun: what its save replaces carries the operation's generation, whatever else became of
      it, and is the unadvanced claim exactly when it still is the run the failure was built on. */
  lemma FailureReplaces(record: Record, expected: State, file: State, cause: string, now: Stamp, steer: Option<nat>)
    requires OwnUnadvancedClaim(record, expected) && SaveState(file, FailedClaim(expected, cause), now, steer).Saved?
    ensures file.runGeneration == record.claim
    ensures OwnUnadvancedClaim(record, file) <==> SamePreparedRun(expected, file)
    ensures
      var saved := SaveState(file, FailedClaim(expected, cause), now, steer).committed;
      ValidState(saved) && SameCore(FailedClaim(expected, cause), saved)
  {
  }

  // ---------- claiming ----------

  datatype ClaimResult = Claimed(state: State) | ClaimRefused

  /** ClaimSessionRunWithGeneration on the locked file content. */
  function Claim(file: State, generation: Stamp, steer: Option<nat>): ClaimResult {
    if generation == 0 || !ValidState(file) || !Resumable(file) || generation <= file.updatedAt then ClaimRefused
    else Claimed(file.(status := Running, phase := "prepare", pauseReason := "", autoResume := 0,
                       updatedAt := generation, runGeneration := generation,
                       pendingSteer := if steer.Some? then steer.value else 0))
  }

  /** The record an operation starts from. */
  function FreshRecord(original: State, claim: Stamp): Record {
    Record(original, original, Validated, Validated, "", claim)
  }

  /** A claim is made exactly over a readable, resumable file older than its stamp, and leaves there the
      unadvanced claim of an operation that started from that file. */
  lemma ClaimIff(file: State, generation: Stamp, steer: Option<nat>)
    ensures Claim(file, generation, steer).Claimed? <==>
              && generation != 0 && ValidState(file) && file.updatedAt < generation
              && file.status in {Paused, AwaitingInput, Failed, Completed}
    ensures Claim(file, generation, steer).Claimed? ==>
              var claimed := Claim(file, generation, steer).state;
              && claimed.updatedAt == generation && claimed.loadedSkills == file.loadedSkills
              && claimed.pendingSteer == (if steer == None then 0 else steer.value)
              && OwnUnadvancedClaim(FreshRecord(file, generation), claimed)
  {
  }

  /** A claim_pending checkpoint is accepted exactly when the state read for it is still the
      original one, up to observations, or already this operation's claim. */
  lemma ClaimPendingAccepted(original: State, claim: Stamp, read: State)
    requires ValidState(original) && Resumable(original) && ValidState(read) && claim != 0
    ensures ValidJournal(claim, Checkpointed(FreshRecord(original, claim), ClaimPending, read)) <==>
              (SameCore(original, read) || OwnUnadvancedClaim(FreshRecord(original, claim), read))
  {
  }

  /** A run_claimed checkpoint is accepted exactly when the claimed file agreed with the original
      on everything a claim keeps. */
  lemma RunClaimedAccepted(original: State, claim: Stamp, file: State, steer: Option<nat>)
    requires ValidState(original) && Resumable(original) && Claim(file, claim, steer).Claimed?
    ensures
      var claimed := Claim(file, claim, steer).state;
      ValidJournal(claim, Checkpointed(FreshRecord(original, claim), RunClaimed, claimed)) <==>
        SameCore(original.(status := file.status, phase := file.phase, pauseReason := file.pauseReason,
                                autoResume := file.autoResume, runGeneration := file.runGeneration), file)
  {
    var claimed := Claim(file, claim, steer).state;
    var kept := original.(status := file.status, phase := file.phase, pauseReason := file.pauseReason,
                          autoResume := file.autoResume, runGeneration := file.runGeneration);
    var expected := ExpectedClaim(FreshRecord(original, claim));
    assert SameCore(kept, file) <==> SameCore(expected, claimed);
  }

  /** An undisturbed claim of a resumable state gives a record that may be written as prepared. */
  lemma ClaimedPrepares(original: State, generation: Stamp, steer: Option<nat>)
    requires Claim(original, generation, steer).Claimed?
    ensures
      var claimed := Claim(original, generation, steer).state;
      && ValidState(claimed) && SamePreparedRun(claimed, claimed)
      && PreparedJournal(generation, Checkpointed(FreshRecord(original, generation), Prepared, claimed))
  {
  }

  /** Nothing holds the original state still between its load and the claim_pending checkpoint: a
      run that starts and ends in between leaves a record every later check refuses. */
  lemma InterleavedRunBreaksClaimPending() returns (original: State, read: State)
    ensures ValidState(original) && Resumable(original) && ValidState(read) && Resumable(read)
    ensures !ValidJournal(7, Checkpointed(FreshRecord(original, 7), ClaimPending, read))
  {
    original := State(Paused, "done", 1, 3, 2, "", "", "", 0, [], 0, map[]);
    read := original.(turn := 2, updatedAt := 5, runGeneration := 4);
  }

  // ---------- retrying a prepared receipt ----------

  datatype Reason =
    | Proceed | TargetChanged | HookOutcomeLost | BeyondPreparation | OwnerAlive | PreClaimChanged
    | OlderGeneration | FailedStateChanged | FailedAdvanced | NotOwned

  function OwnershipExpectation(record: Record): State {
    if record.phase == ClaimPending then ExpectedClaim(record) else record.prepared
  }

  /** approvalPreparationOwnsState. */
  predicate OwnsState(record: Record, current: State) {
    && record.claim != 0 && OwnershipExpectation(record).runGeneration == record.claim
    && SamePreparedRun(OwnershipExpectation(record), current)
  }

  /** approvalOperationRecoveryReason: why a retry must not continue the preparation by itself. */
  function RecoveryReason(generation: Stamp, record: Record, targetValid: bool, hookPending: bool,
                          otherOwnerAlive: bool, file: State): Reason {
    if !targetValid then TargetChanged
    else if hookPending then HookOutcomeLost
    else if record.phase in {Executing, Settled, Aborted, ReviewRequired, Recovered} then BeyondPreparation
    else if otherOwnerAlive then OwnerAlive
    else if generation == 0 then (if file == record.original then Proceed else PreClaimChanged)
    else if record.claim != file.runGeneration then OlderGeneration
    else if record.phase == PrepareFailed && record.prepared.status == Failed then
      if file.status != Failed then FailedStateChanged
      else if !SamePreparedRun(record.prepared.(status := Running), file.(status := Running)) then FailedAdvanced
      else Proceed
    else if OwnsState(record, file) then Proceed
    else NotOwned
  }

  /** The completed phases before anything could have run. */
  predicate Preparing(completed: Phase) {
    completed in {Validated, ClaimPending, RunClaimed, PlanExecuting, MissionApproved, ReplayRecorded, Prepared}
  }

  datatype Resumption = PreClaim | Resumed(record: Record, file: State) | ResumeConflict

  /** resumeApprovalOperationClaim after its facts were repaired; no other writer interferes. */
  function Resume(record: Record, file: State, now: Stamp, steer: Option<nat>): Resumption {
    if file.runGeneration != record.claim then PreClaim
    else
      var swapped :=
        if file.status == Failed
        then SwapState(file, file, file.(status := Running, phase := "prepare", lastError := record.original.lastError), now, steer)
        else Saved(file);
      if !swapped.Saved? then ResumeConflict
      else
        var state := swapped.committed;
        var expected :=
          if record.phase == ClaimPending then state
          else if record.prepared.status == Failed
          then record.prepared.(status := Running, lastError := record.original.lastError)
          else record.prepared;
        if SamePreparedRun(expected, state) then Resumed(record.(prepared := state), state) else ResumeConflict
  }

  /** A retry that is told to proceed resumes: it holds the operation's own unadvanced claim, and
      the claim_pending record it writes next is accepted. prepare_failed is only ever written over
      a preparing phase, and the claim stamp is younger than the original state. */
  lemma ProceedResumes(generation: Stamp, record: Record, file: State, now: Stamp, steer: Option<nat>)
    requires ValidJournal(generation, record) && generation != 0 && ValidState(file) && now != 0
    requires record.original.runGeneration != record.claim && Preparing(record.completed)
    requires RecoveryReason(generation, record, true, false, false, file) == Proceed
    ensures
      var r := Resume(record, file, now, steer);
      && r.Resumed? && OwnUnadvancedClaim(record, r.file)
      && ValidJournal(generation, Checkpointed(r.record, ClaimPending, r.file))
  {
    if file.status == Failed {
      var next := file.(status := Running, phase := "prepare", lastError := record.original.lastError);
      SwapCommits(file, next, now, steer);
    }
  }

  /** A receipt whose claim never reached state.json proceeds only on the exact original state. */
  lemma UnclaimedRetryNeedsOriginal(record: Record, targetValid: bool, hookPending: bool, otherOwnerAlive: bool, file: State)
    requires ValidJournal(0, record)
    ensures RecoveryReason(0, record, targetValid, hookPending, otherOwnerAlive, file) == Proceed <==>
              (targetValid && !hookPending && !otherOwnerAlive && file == record.original)
  {
  }

  /** The failed claim as the operation made it: running again, it is its own unadvanced claim. */
  predicate OwnFailedClaim(record: Record, file: State) {
    && file.status == Failed && file.lastError == record.lastError
    && OwnUnadvancedClaim(record, file.(status := Running, lastError := record.original.lastError))
  }

  /** Which captured state the recovery check accepts in a record bound to a claim, phase by phase. */
  lemma AcceptedStates(generation: Stamp, record: Record)
    requires generation != 0 && record.claim == generation && Resumable(record.original)
    requires ValidState(record.original) && ValidState(record.prepared)
    requires record.phase == PrepareFailed ==> Preparing(record.completed)
    ensures ValidJournal(generation, record) <==>
              var isOriginal := SameCore(record.original, record.prepared);
              var ownFailure := record.lastError != "" && OwnFailedClaim(record, record.prepared);
              && (record.phase != PrepareFailed ==> record.completed == record.phase)
              && match record.phase
                 case Validated => false
                 case ClaimPending => isOriginal || OwnUnadvancedClaim(record, record.prepared)
                 case RunClaimed | PlanExecuting | MissionApproved | ReplayRecorded | Prepared | Executing =>
                   OwnUnadvancedClaim(record, record.prepared)
                 case PrepareFailed =>
                   record.completed != Validated && (ownFailure || (isOriginal && record.completed == ClaimPending))
                 case Aborted => isOriginal || ownFailure
                 case ReviewRequired =>
                   && record.prepared.status == AwaitingInput && record.prepared.phase == "plan_approval"
                   && record.prepared.idleReason == "approval_content_changed"
                   && record.lastError != "" && record.prepared.lastError == record.lastError
                   && OwnUnadvancedClaim(record, record.prepared.(status := Running, phase := "prepare",
                        idleReason := record.original.idleReason, lastError := record.original.lastError))
                 case Settled => record.prepared.runGeneration == generation
                 case Recovered => isOriginal || record.prepared.runGeneration == generation
  {
    if record.phase == PrepareFailed || record.phase == Aborted {
      assert FailedOwnClaim(record) <==>
               record.lastError != "" && record.prepared.status == Failed && record.prepared.lastError == record.lastError;
    }
  }

  /** When a retry of a receipt bound to a claim may continue the preparation by itself: the target
      still is the one reviewed, no hook outcome is open, nobody else is preparing, the operation is
      not past its preparation, and the file is the operation's own claim, unadvanced. After a
      failure it is that claim marked failed with the recorded cause, and the record must have
      captured the claim. The claim stamp is younger than the original state. */
  lemma ProceedIff(generation: Stamp, record: Record, targetValid: bool, hookPending: bool, otherOwnerAlive: bool, file: State)
    requires ValidJournal(generation, record) && generation != 0 && record.original.runGeneration != record.claim
    requires record.phase == PrepareFailed ==> Preparing(record.completed)
    ensures RecoveryReason(generation, record, targetValid, hookPending, otherOwnerAlive, file) == Proceed <==>
              && targetValid && !hookPending && !otherOwnerAlive
              && (if record.phase == PrepareFailed
                  then record.prepared.runGeneration == generation && OwnFailedClaim(record, file)
                  else Preparing(record.phase) && OwnUnadvancedClaim(record, file))
  {
    if record.phase == PrepareFailed {
      FailedRetryIff(generation, record, file);
    }
  }

  lemma FailedRetryIff(generation: Stamp, record: Record, file: State)
    requires ValidJournal(generation, record) && generation != 0 && record.original.runGeneration != record.claim
    requires record.phase == PrepareFailed && Preparing(record.completed)
    ensures RecoveryReason(generation, record, true, false, false, file) == Proceed <==>
              record.prepared.runGeneration == generation && OwnFailedClaim(record, file)
  {
    if record.prepared.runGeneration == generation {
      assert FailedOwnClaim(record);
      assert SamePreparedRun(ExpectedClaim(record), record.prepared.(status := Running, lastError := record.original.lastError));
      assert SamePreparedRun(record.prepared.(status := Running), file.(status := Running)) <==>
               file.lastError == record.lastError &&
               OwnUnadvancedClaim(record, file.(status := Running, lastError := record.original.lastError));
    }
  }

  /** The records a preparation writes on its way: claim_pending over the state it read, every later
      one over the claim. */
  function PreparationRecord(original: State, claimed: State, phase: Phase): Record {
    Checkpointed(FreshRecord(original, claimed.runGeneration), phase, if phase == ClaimPending then original else claimed)
  }

  /** A preparation that dies at any checkpoint after its claim can be retried: its record is
      accepted, the retry is told to proceed over the claim it left, whatever was observed there
      meanwhile, and goes on from exactly that file. */
  lemma RetryAfterCrash(original: State, generation: Stamp, steer: Option<nat>, phase: Phase, file: State, now: Stamp, later: Option<nat>)
    requires Claim(original, generation, steer).Claimed? && original.runGeneration != generation
    requires Preparing(phase) && phase != Validated
    requires ValidState(file) && now != 0 && SamePreparedRun(Claim(original, generation, steer).state, file)
    ensures
      var record := PreparationRecord(original, Claim(original, generation, steer).state, phase);
      && ValidJournal(generation, record)
      && RecoveryReason(generation, record, true, false, false, file) == Proceed
      && Resume(record, file, now, later) == Resumed(record.(prepared := file), file)
  {
    var claimed := Claim(original, generation, steer).state;
    var record := PreparationRecord(original, claimed, phase);
    assert ValidState(claimed);
    assert OwnUnadvancedClaim(record, claimed);
    ProceedIff(generation, record, true, false, false, file);
  }

  /** A failed admission can be retried once it is recorded: the failed claim is read as running
      again and is the operation's own; before the record is written the same file is refused. */
  lemma RetryAfterFailedAdmission(generation: Stamp, record: Record, replaced: State, cause: string, swapTime: Stamp, steer: Option<nat>,
                                  now: Stamp, later: Option<nat>)
    requires PreparedJournal(generation, record) && record.original.runGeneration != record.claim
    requires SamePreparedRun(record.prepared, replaced) && ValidState(replaced) && swapTime != 0 && now != 0 && cause != ""
    ensures
      var swapped := SwapState(replaced, replaced, FailedClaim(replaced, cause), swapTime, steer);
      && swapped.Saved?
      && var written := Checkpointed(record.(lastError := cause), PrepareFailed, swapped.committed);
         && RecoveryReason(generation, written, true, false, false, swapped.committed) == Proceed
         && Resume(written, swapped.committed, now, later).Resumed?
         && OwnUnadvancedClaim(written, Resume(written, swapped.committed, now, later).file)
         && RecoveryReason(generation, record, true, false, false, swapped.committed) == NotOwned
  {
    AdmissionFailureAccepted(generation, record, replaced, cause, false, swapTime, steer);
    WaitingClaimIsOwn(generation, record, replaced);
    SwapCommits(replaced, FailedClaim(replaced, cause), swapTime, steer);
    var failed := SwapState(replaced, replaced, FailedClaim(replaced, cause), swapTime, steer).committed;
    var written := Checkpointed(record.(lastError := cause), PrepareFailed, failed);
    assert OwnFailedClaim(written, failed);
    ProceedIff(generation, written, true, false, false, failed);
    ProceedResumes(generation, written, failed, now, later);
  }

  /** A preparation that dies between its claim_pending record and its claim cannot be retried: the
      receipt is bound to a generation state.json never got. */
  lemma UnmadeClaimIsRefused(original: State, claim: Stamp)
    requires ValidState(original) && Resumable(original) && claim != 0 && original.runGeneration != claim
    ensures
      var record := Checkpointed(FreshRecord(original, claim), ClaimPending, original);
      && ValidJournal(claim, record)
      && RecoveryReason(claim, record, true, false, false, original) == OlderGeneration
  {
  }

  // ---------- a claim that reported an error ----------

  datatype Restored = RestoredAs(record: Record, file: State) | RestoreRefused

  /** restoreApprovalClaimAfterError over the state it loads; no other writer interferes. */
  function Restore(record: Record, file: State, cause: string, now: Stamp, steer: Option<nat>): Restored {
    var failed := record.(lastError := cause);
    if OwnsState(failed, file) then
      var swapped := SwapState(file, file, record.original, now, steer);
      if swapped.Saved? then RestoredAs(Checkpointed(failed, PrepareFailed, swapped.committed), swapped.committed) else RestoreRefused
    else if file == record.original then RestoredAs(Checkpointed(failed, PrepareFailed, file), file)
    else RestoreRefused
  }

  /** A claim that reported an error is undone exactly over the operation's own unadvanced claim or the
      untouched original; the original comes back up to its observations, and its record is accepted. */
  lemma RestoreAccepted(generation: Stamp, record: Record, file: State, cause: string, now: Stamp, steer: Option<nat>)
    requires ValidJournal(generation, record) && record.phase == ClaimPending && generation != 0
    requires ValidState(file) && now != 0
    ensures
      var r := Restore(record, file, cause, now, steer);
      && (r.RestoredAs? <==> OwnUnadvancedClaim(record, file) || file == record.original)
      && (r.RestoredAs? ==> SameCore(record.original, r.file) && ValidJournal(generation, r.record))
  {
    SwapCommits(file, record.original, now, steer);
  }

  // ---------- the retrying swap ----------

  /** What other writers leave in state.json before an attempt's load and before its compare. */
  datatype Interference = Interference(beforeLoad: Option<State>, beforeCompare: Option<State>, steer: Option<nat>)

  datatype Swap = Swap(replaced: State, committed: State)

  datatype SwapOutcome = Committed(state: State) | Conflict | SwapFailed

  /** state.json with the history of the swaps made through this handle. */
  class StateFile {
    var state: State
    var clock: Stamp
    ghost var swaps: seq<Swap>

    constructor (initial: State, now: Stamp)
      ensures state == initial && clock == now && swaps == []
    {
      state, clock, swaps := initial, now, [];
    }

    method OtherWriter(write: Option<State>)
      modifies this`state
      ensures state == if write.Some? then write.value else old(state)
    {
      if write.Some? {
        state := write.value;
      }
    }

    /** SwapStateIfCurrent. */
    method SwapStateIfCurrent(expected: State, next: State, steer: Option<nat>) returns (r: SwapResult)
      modifies this
      ensures clock == old(clock) + 1
      ensures r == SwapState(old(state), expected, next, clock, steer)
      ensures r.Saved? ==> state == r.committed && swaps == old(swaps) + [Swap(old(state), r.committed)]
      ensures !r.Saved? ==> state == old(state) && swaps == old(swaps)
    {
      clock := clock + 1;
      r := SwapState(state, expected, next, clock, steer);
      if r.Saved? {
        ghost var replaced := state;
        state := r.committed;
        swaps := swaps + [Swap(replaced, r.committed)];
      }
    }

    /** swapPreparedApprovalState under any finite interference by other writers: at most one swap
        is made, and what it replaces is the expected run, unadvanced. */
    method SwapPrepared(expected: State, next: State -> State, script: seq<Interference>) returns (r: SwapOutcome)
      modifies this
      ensures r.Committed? ==>
        && |swaps| == |old(swaps)| + 1 && swaps[..|old(swaps)|] == old(swaps)
        && var swap := swaps[|old(swaps)|];
           && SamePreparedRun(expected, swap.replaced)
           && swap.committed == r.state == state
           && exists steer :: SwapState(swap.replaced, swap.replaced, next(swap.replaced), clock, steer) == Saved(r.state)
      ensures !r.Committed? ==> swaps == old(swaps)
      ensures r.Conflict? ==> !SamePreparedRun(expected, state)
      ensures old(clock) <= clock
    {
      var attempt := 0;
      while true
        invariant 0 <= attempt <= |script|
        invariant swaps == old(swaps) && old(clock) <= clock
        decreases |script| - attempt
      {
        var turn := if attempt < |script| then script[attempt] else Interference(None, None, None);
        OtherWriter(turn.beforeLoad);
        var current := state;
        if !SamePreparedRun(expected, current) {
          return Conflict;
        }
        OtherWriter(turn.beforeCompare);
        var swapped := SwapStateIfCurrent(current, next(current), turn.steer);
        match swapped {
          case Saved(committed) => return Committed(committed);
          case Refused => return SwapFailed;
          case NotSaved =>
        }
        attempt := attempt + 1;
      }
    }
  }
}
