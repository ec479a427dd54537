/**
  The other side of safety: an approval that nothing disturbs does reach its one start. From a free
  lock, a resumable state and a new request there is a run of the protocol that creates the receipt,
  claims the state, admits the operation, hands out its executable and starts the provider; and a run in
  which a manual stop is overwritten instead
  (internal/runtime/approval_receipts.go:485-693, internal/runtime/approval.go:128-219,
  internal/runtime/runner.go:1048-1070, 1125-1131, 1198-1208, 2906-2915).
*/
module ApprovalProgress {
  import opened ApprovalProtocol
  import opened ApprovalSafety
  import J = ApprovalJournal
  import L = ApprovalLedger

  lemma Go(w: World, c: CallId, s: Step, w': World)
    requires Inv(w) && Does(w, c, s, w')
    ensures Moves(w, w') && Inv(w')
  {
    StepKeeps(w, c, s, w');
  }

  /** The receipt's own times are past. */
  predicate Timely(l: L.Ledger, operation: string, now: J.Stamp) {
    && operation in l.operations && now != 0
    && l.operations[operation].created <= now && l.operations[operation].admitted <= now
  }

  /** What does not change while one call goes on by itself. */
  predicate Undisturbed(w: World, w': World) {
    w'.dead == w.dead && w'.starts == w.starts
  }

  // ---------- from a prepared claim to the start ----------

  predicate CanAdmit(w: World, c: CallId, s: L.Snapshot) {
    && c in w.calls && w.calls[c].pc.Ready?
    && var context := w.calls[c].pc.context;
       && context.operation in w.ledger.operations
       && w.ledger.operations[context.operation].phase == L.InJournal(J.Prepared)
       && L.TargetCurrent(s, context.target)
  }

  lemma AdmissionGoesThrough(l: L.Ledger, context: Context, s: L.Snapshot, now: J.Stamp)
    requires L.ValidLedger(l) && ContextOk(context) && ReceiptOk(l, context, true) && L.ClockPast(l, now)
    requires l.operations[context.operation].phase == L.InJournal(J.Prepared) && L.TargetCurrent(s, context.target)
    ensures
      var admitted := L.Admit(l, context.operation, context.generation, s, now);
      admitted.Ok? && Timely(admitted.value.ledger, context.operation, now)
  {
    assert L.Has(l, context.operation) && L.OperationOk(l, context.operation);
    L.AdmitPublishes(l, context.operation, context.generation, s, now);
    L.AdmitEffect(l, context.operation, context.generation, s, now);
  }

  lemma IntentGoesThrough(l: L.Ledger, context: Context, recovery: L.Recovery, now: J.Stamp)
    requires L.ValidLedger(l) && AdmittedAs(l, context) && Timely(l, context.operation, now)
    requires recovery.Recovery? && recovery.generation == context.generation && recovery.owner > 0
    ensures L.Checkpoint(l, context.operation, context.generation, J.Executing, recovery, now).Ok?
  {
    L.CheckpointPublishes(l, context.operation, context.generation, J.Executing, recovery, now);
  }

  lemma AdmitReady(w: World, c: CallId, s: L.Snapshot, handle: ExecId, now: J.Stamp) returns (w': World)
    requires Inv(w) && CanAdmit(w, c, s) && handle !in w.execs && L.ClockPast(w.ledger, now)
    ensures Moves(w, w') && Inv(w') && Undisturbed(w, w')
    ensures w'.lock.None? && c !in w'.calls && w'.file == w.file
    ensures handle in w'.execs && w'.execs[handle] == Exec(w.calls[c].pc.context, w.calls[c].runner, false)
    ensures Timely(w'.ledger, w.calls[c].pc.context.operation, now)
  {
    var context := w.calls[c].pc.context;
    var op := context.operation;
    assert HasCall(w, c) && CallOk(w, c);
    AdmissionGoesThrough(w.ledger, context, s, now);
    var next := L.Admit(w.ledger, op, context.generation, s, now).value.ledger;
    var published := Publish(w, next, Committed);
    w' := Return(published.(execs := published.execs[handle := Exec(context, w.calls[c].runner, false)]), c);
    Go(w, c, Admit(handle, s, Committed, now, ""), w');
  }

  lemma ConsumeHandle(w: World, c: CallId, handle: ExecId) returns (w': World)
    requires Inv(w) && c !in w.calls && handle in w.execs && !w.execs[handle].consumed && w.execs[handle].runner !in w.dead
    ensures Moves(w, w') && Inv(w') && Undisturbed(w, w')
    ensures w'.lock == w.lock && w'.file == w.file && w'.ledger == w.ledger
    ensures handle in w'.execs && w'.execs[handle].context == w.execs[handle].context
    ensures c in w'.calls && w'.calls[c] == Call(w.execs[handle].runner, Waiting(handle, false))
  {
    var runner := w.execs[handle].runner;
    w' := w.(calls := w.calls[c := Call(runner, Waiting(handle, false))],
             execs := w.execs[handle := w.execs[handle].(consumed := true)]);
    Go(w, c, Consume(runner, handle, false), w');
  }

  lemma CheckClaim(w: World, c: CallId, handle: ExecId) returns (w': World)
    requires Inv(w) && w.lock.None? && c in w.calls && w.calls[c].pc == Waiting(handle, false) && handle in w.execs
    requires J.SamePreparedRun(w.execs[handle].context.state, w.file)
    ensures Moves(w, w') && Inv(w') && Undisturbed(w, w')
    ensures w'.lock == J.Some(c) && w'.file == w.file && w'.ledger == w.ledger && w'.execs == w.execs
    ensures c in w'.calls && w'.calls[c] == Call(w.calls[c].runner, Swapping(Execute, J.Some(handle), w.execs[handle].context, J.None))
  {
    assert HasExec(w, handle) && ExecOk(w, handle);
    w' := Goto(w.(lock := J.Some(c)), c, Swapping(Execute, J.Some(handle), w.execs[handle].context, J.None));
    Go(w, c, Check(Execute, L.Snapshot(w.execs[handle].context.target, true, false), true), w');
  }

  lemma ObserveClaim(w: World, c: CallId, handle: ExecId, context: Context) returns (w': World)
    requires Inv(w) && w.lock == J.Some(c) && c in w.calls
    requires w.calls[c].pc == Swapping(Execute, J.Some(handle), context, J.None) && J.SamePreparedRun(context.state, w.file)
    ensures Moves(w, w') && Inv(w') && Undisturbed(w, w')
    ensures w'.lock == J.Some(c) && w'.file == w.file && w'.ledger == w.ledger && w'.execs == w.execs
    ensures c in w'.calls && w'.calls[c] == Call(w.calls[c].runner, Swapping(Execute, J.Some(handle), context, J.Some(w.file)))
  {
    w' := Goto(w, c, Swapping(Execute, J.Some(handle), context, J.Some(w.file)));
    Go(w, c, Observe, w');
  }

  lemma CompareClaim(w: World, c: CallId, handle: ExecId, context: Context, now: J.Stamp) returns (w': World, committed: J.State)
    requires Inv(w) && w.lock == J.Some(c) && c in w.calls && now != 0
    requires w.calls[c].pc == Swapping(Execute, J.Some(handle), context, J.Some(w.file))
    ensures Moves(w, w') && Inv(w') && Undisturbed(w, w')
    ensures w'.lock == J.Some(c) && w'.ledger == w.ledger && w'.execs == w.execs
    ensures w'.file == committed && J.SamePreparedRun(context.state, committed)
    ensures c in w'.calls && w'.calls[c] == Call(w.calls[c].runner, Swapped(Execute, J.Some(handle), context, committed))
  {
    assert HasCall(w, c) && CallOk(w, c);
    J.ExecuteAccepted(context.generation, context.record, w.file, now, J.None);
    committed := J.SwapState(w.file, w.file, w.file, now, J.None).committed;
    w' := Goto(w.(file := committed, history := w.history + [ClaimSwap(context.record, w.file, committed)]), c,
               Swapped(Execute, J.Some(handle), context, committed));
    Go(w, c, Compare(now, J.None), w');
  }

  lemma RecordIntent(w: World, c: CallId, handle: ExecId, context: Context, committed: J.State, now: J.Stamp) returns (w': World)
    requires Inv(w) && w.lock == J.Some(c) && c in w.calls && w.calls[c].runner > 0 && handle in w.execs
    requires w.calls[c].pc == Swapped(Execute, J.Some(handle), context, committed) && Timely(w.ledger, context.operation, now)
    ensures Moves(w, w') && Inv(w') && Undisturbed(w, w') && w'.execs == w.execs && w'.file == w.file
    ensures c in w'.calls && w'.calls[c].pc == Starting(handle, committed)
  {
    w' := IntentGoes(w, c, handle, context, committed, now);
    Go(w, c, Record(Committed, now, ""), w');
  }

  lemma IntentGoes(w: World, c: CallId, handle: ExecId, context: Context, committed: J.State, now: J.Stamp) returns (w': World)
    requires Inv(w) && w.lock == J.Some(c) && c in w.calls && w.calls[c].runner > 0 && handle in w.execs
    requires w.calls[c].pc == Swapped(Execute, J.Some(handle), context, committed) && Timely(w.ledger, context.operation, now)
    ensures DoRecord(w, c, Record(Committed, now, ""), w') && Undisturbed(w, w') && w'.execs == w.execs && w'.file == w.file
    ensures c in w'.calls && w'.calls[c].pc == Starting(handle, committed)
  {
    assert HasCall(w, c) && CallOk(w, c);
    assert HasExec(w, handle) && ExecOk(w, handle);
    var record := JobRecord(Execute, context, committed);
    var recovery := L.Recovery(context.generation, w.calls[c].runner, record);
    IntentGoesThrough(w.ledger, context, recovery, now);
    var next := L.Checkpoint(w.ledger, context.operation, context.generation, J.Executing, recovery, now).value.ledger;
    w' := AfterRecord(Publish(Note(w, RecordWrite(context.generation, record)), next, Committed), c, Committed, "");
  }

  lemma StartProvider(w: World, c: CallId, handle: ExecId, state: J.State) returns (w': World)
    requires Inv(w) && c in w.calls && w.calls[c].pc == Starting(handle, state)
    ensures Moves(w, w') && Inv(w') && w'.starts == w.starts + [handle] && w'.execs == w.execs
  {
    w' := Goto(w.(starts := w.starts + [handle]), c, Ran(handle, state));
    Go(w, c, Start, w');
  }

  /** Worlds that follow each other from `first` to `last`. */
  ghost predicate Path(worlds: seq<World>, first: World, last: World) {
    && |worlds| > 0 && worlds[0] == first && worlds[|worlds| - 1] == last
    && forall i :: 0 <= i < |worlds| - 1 ==> Moves(worlds[i], worlds[i + 1])
  }

  lemma Onward(worlds: seq<World>, first: World, mid: World, last: World)
    requires Path(worlds, first, mid) && Moves(mid, last)
    ensures Path(worlds + [last], first, last)
  {
  }

  /** An executable nobody consumed, of a claim nobody advanced, reaches its recorded execution intent. */
  lemma HandleReachesIntent(w: World, c: CallId, handle: ExecId, now: J.Stamp)
    returns (worlds: seq<World>, last: World, committed: J.State)
    requires Inv(w) && w.lock.None? && c !in w.calls && handle in w.execs && !w.execs[handle].consumed
    requires w.execs[handle].runner !in w.dead && w.execs[handle].runner > 0
    requires J.SamePreparedRun(w.execs[handle].context.state, w.file)
    requires Timely(w.ledger, w.execs[handle].context.operation, now)
    ensures Path(worlds, w, last) && Inv(last) && Undisturbed(w, last)
    ensures c in last.calls && last.calls[c].pc == Starting(handle, committed)
    ensures last.file == committed && J.SamePreparedRun(w.execs[handle].context.state, committed)
    ensures handle in last.execs && last.execs[handle].context == w.execs[handle].context
  {
    var context := w.execs[handle].context;
    worlds := [w];
    var w1 := ConsumeHandle(w, c, handle);
    Onward(worlds, w, w, w1);
    worlds := worlds + [w1];
    var w2 := CheckClaim(w1, c, handle);
    Onward(worlds, w, w1, w2);
    worlds := worlds + [w2];
    var w3 := ObserveClaim(w2, c, handle, context);
    Onward(worlds, w, w2, w3);
    worlds := worlds + [w3];
    var w4;
    w4, committed := CompareClaim(w3, c, handle, context, now);
    Onward(worlds, w, w3, w4);
    worlds := worlds + [w4];
    last := RecordIntent(w4, c, handle, context, committed, now);
    Onward(worlds, w, w4, last);
    worlds := worlds + [last];
  }

  /** And from there its start. */
  lemma HandleReachesItsStart(w: World, c: CallId, handle: ExecId, now: J.Stamp) returns (worlds: seq<World>, last: World)
    requires Inv(w) && w.lock.None? && c !in w.calls && handle in w.execs && !w.execs[handle].consumed
    requires w.execs[handle].runner !in w.dead && w.execs[handle].runner > 0
    requires J.SamePreparedRun(w.execs[handle].context.state, w.file)
    requires Timely(w.ledger, w.execs[handle].context.operation, now)
    ensures Path(worlds, w, last) && last.starts == w.starts + [handle]
    ensures handle in last.execs && last.execs[handle].context == w.execs[handle].context
  {
    var ready, committed;
    worlds, ready, committed := HandleReachesIntent(w, c, handle, now);
    last := StartProvider(ready, c, handle, committed);
    Onward(worlds, w, ready, last);
    worlds := worlds + [last];
  }

  // ---------- from a new request to a prepared claim ----------

  ghost predicate CanCreate(l: L.Ledger, rq: L.Request, s: L.Snapshot)
    requires L.ValidLedger(l)
  {
    && rq.id != "" && L.ValidTarget(rq.params.target) && L.Find(l, rq).NotFound?
    && L.TargetCurrent(s, rq.params.target) && (s.coverageBlocked ==> rq.params.overrideCoverage)
  }

  /** A prepared receipt of the request, written by `owner`, with every clock past. */
  ghost predicate Prepares(l: L.Ledger, rq: L.Request, generation: J.Stamp, now: J.Stamp) {
    && L.ValidLedger(l) && L.ClockPast(l, now) && rq.id in l.operations
    && l.operations[rq.id].stage == L.Prepared && l.operations[rq.id].params == rq.params
    && L.Generation(l.operations[rq.id]) == generation
  }

  lemma CreationGoesThrough(l: L.Ledger, rq: L.Request, recovery: L.Recovery, s: L.Snapshot, now: J.Stamp)
    requires L.ValidLedger(l) && CanCreate(l, rq, s) && L.ValidRecovery(recovery) && L.ClockPast(l, now)
    ensures
      var created := L.Create(l, rq, recovery, "", s, now);
      created.Ok? && Prepares(created.value.ledger, rq, recovery.generation, now)
  {
    L.CreatePublishes(l, rq, recovery, "", s, now);
    L.CreateEffect(l, rq, recovery, "", s, now);
    var next := L.Create(l, rq, recovery, "", s, now).value.ledger;
    forall id | L.Has(next, id)
      ensures next.operations[id].updated <= now
    {
      assert id != rq.id ==> L.Has(l, id);
    }
  }

  lemma CheckpointGoesThrough(l: L.Ledger, rq: L.Request, generation: J.Stamp, phase: J.Phase, recovery: L.Recovery, now: J.Stamp)
    requires Prepares(l, rq, generation, now) && L.ValidRecovery(recovery)
    requires generation != 0 ==> recovery.generation == generation
    ensures
      var written := L.Checkpoint(l, rq.id, generation, phase, recovery, now);
      && written.Ok? && Prepares(written.value.ledger, rq, recovery.generation, now)
      && written.value.ledger.operations[rq.id].phase == L.InJournal(phase)
  {
    assert L.Has(l, rq.id) && L.OperationOk(l, rq.id);
    L.CheckpointPublishes(l, rq.id, generation, phase, recovery, now);
    var next := L.Checkpoint(l, rq.id, generation, phase, recovery, now).value.ledger;
    forall id | L.Has(next, id)
      ensures next.operations[id].updated <= now
    {
      assert L.Has(l, id);
    }
  }

  lemma EnterNew(w: World, c: CallId, runner: RunnerId, rq: L.Request) returns (w': World)
    requires Inv(w) && w.lock.None? && c !in w.calls && runner !in w.dead
    ensures Moves(w, w') && Inv(w') && Undisturbed(w, w') && w'.ledger == w.ledger && w'.file == w.file && w'.execs == w.execs
    ensures w'.lock == J.Some(c) && c in w'.calls && w'.calls[c] == Call(runner, Entered(rq))
  {
    w' := w.(lock := J.Some(c), calls := w.calls[c := Call(runner, Entered(rq))]);
    Go(w, c, Enter(runner, rq), w');
  }

  lemma CreateNew(w: World, c: CallId, rq: L.Request, recovery: L.Recovery, s: L.Snapshot, now: J.Stamp) returns (w': World)
    requires Inv(w) && w.lock == J.Some(c) && c in w.calls && w.calls[c].pc == Entered(rq)
    requires CanCreate(w.ledger, rq, s) && L.ValidRecovery(recovery) && L.ClockPast(w.ledger, now)
    ensures Moves(w, w') && Inv(w') && Undisturbed(w, w') && w'.file == w.file && w'.execs == w.execs
    ensures w'.lock == J.Some(c) && c in w'.calls && w'.calls[c] == Call(w.calls[c].runner, Preparing(rq.id))
    ensures Prepares(w'.ledger, rq, recovery.generation, now)
  {
    CreationGoesThrough(w.ledger, rq, recovery, s, now);
    w' := Goto(Publish(w, L.Create(w.ledger, rq, recovery, "", s, now).value.ledger, Committed), c, Preparing(rq.id));
    Go(w, c, Create(recovery, "", s, Committed, now), w');
  }

  /** A checkpoint of the preparation; claim_pending is the one that binds the claim's generation. */
  lemma CheckpointNew(w: World, c: CallId, rq: L.Request, bound: J.Stamp, phase: J.Phase, recovery: L.Recovery, now: J.Stamp)
    returns (w': World)
    requires Inv(w) && w.lock == J.Some(c) && c in w.calls && w.calls[c].pc == Preparing(rq.id)
    requires J.Preparing(phase) && phase != J.Prepared && Prepares(w.ledger, rq, bound, now)
    requires L.ValidRecovery(recovery) && (bound != 0 ==> recovery.generation == bound)
    ensures Moves(w, w') && Inv(w') && Undisturbed(w, w') && w'.file == w.file && w'.execs == w.execs
    ensures w'.lock == J.Some(c) && w'.calls == w.calls
    ensures Prepares(w'.ledger, rq, recovery.generation, now)
  {
    CheckpointGoesThrough(w.ledger, rq, bound, phase, recovery, now);
    w' := Publish(w, L.Checkpoint(w.ledger, rq.id, bound, phase, recovery, now).value.ledger, Committed);
    Go(w, c, Checkpoint(phase, recovery, Committed, now), w');
  }

  /** Any valid state may come to stand in state.json: here the run claim, there a manual stop. */
  lemma WriteState(w: World, c: CallId, state: J.State) returns (w': World)
    requires Inv(w) && J.ValidState(state)
    ensures Moves(w, w') && Inv(w') && w' == w.(file := state)
  {
    w' := w.(file := state);
    Go(w, c, OtherWriter(state), w');
  }

  lemma PrepareNew(w: World, c: CallId, rq: L.Request, recovery: L.Recovery, now: J.Stamp) returns (w': World)
    requires Inv(w) && w.lock == J.Some(c) && c in w.calls && w.calls[c].pc == Preparing(rq.id)
    requires L.ValidRecovery(recovery) && Prepares(w.ledger, rq, recovery.generation, now)
    requires J.PreparedJournal(recovery.generation, recovery.record)
    ensures Moves(w, w') && Inv(w') && Undisturbed(w, w') && w'.file == w.file && w'.execs == w.execs
    ensures c in w'.calls && w'.calls[c] == Call(w.calls[c].runner, Ready(NewContext(rq, recovery)))
    ensures Prepares(w'.ledger, rq, recovery.generation, now) && w'.ledger.operations[rq.id].phase == L.InJournal(J.Prepared)
  {
    CheckpointGoesThrough(w.ledger, rq, recovery.generation, J.Prepared, recovery, now);
    var next := L.Checkpoint(w.ledger, rq.id, recovery.generation, J.Prepared, recovery, now).value.ledger;
    w' := Goto(Publish(w, next, Committed), c, Ready(NewContext(rq, recovery)));
    Go(w, c, Prepare(recovery, Committed, now), w');
  }

  function NewContext(rq: L.Request, recovery: L.Recovery): Context
    requires recovery.Recovery?
  {
    Context(rq.id, rq.params.target, recovery.generation, recovery.record, recovery.record.prepared)
  }

  /** What the preparation of `original` records at a phase over a state. */
  function Recorded(original: J.State, generation: J.Stamp, owner: nat, phase: J.Phase, state: J.State): L.Recovery {
    L.Recovery(generation, owner, J.Checkpointed(J.FreshRecord(original, generation), phase, state))
  }

  /** The context of an operation prepared over the claim of `original`. */
  function ClaimedContext(rq: L.Request, original: J.State, generation: J.Stamp, owner: nat, steer: J.Option<nat>): Context
    requires J.Claim(original, generation, steer).Claimed?
  {
    NewContext(rq, Recorded(original, generation, owner, J.Prepared, J.Claim(original, generation, steer).state))
  }

  lemma Join(a: seq<World>, b: seq<World>, first: World, mid: World, last: World)
    requires Path(a, first, mid) && Path(b, mid, last)
    ensures Path(a + b[1..], first, last)
  {
    var all := a + b[1..];
    forall i | 0 <= i < |all| - 1
      ensures Moves(all[i], all[i + 1])
    {
      if i < |a| - 1 {
        assert all[i] == a[i] && all[i + 1] == a[i + 1];
      } else {
        assert all[i] == b[i - |a| + 1] && all[i + 1] == b[i - |a| + 2];
      }
    }
  }

  /** From the lookup to the run claim: the receipt is created, its claim_pending record binds the
      generation, the claim replaces the resumable state, and run_claimed is recorded over it. */
  lemma NewRequestIsClaimed(w: World, c: CallId, rq: L.Request, s: L.Snapshot, owner: nat, generation: J.Stamp,
                            steer: J.Option<nat>, now: J.Stamp) returns (worlds: seq<World>, last: World)
    requires Inv(w) && w.lock.None? && c !in w.calls && owner > 0 && owner !in w.dead
    requires CanCreate(w.ledger, rq, s) && L.ClockPast(w.ledger, now)
    requires J.Claim(w.file, generation, steer).Claimed?
    ensures Path(worlds, w, last) && Inv(last) && Undisturbed(w, last) && last.execs == w.execs
    ensures last.lock == J.Some(c) && c in last.calls && last.calls[c] == Call(owner, Preparing(rq.id))
    ensures last.file == J.Claim(w.file, generation, steer).state && Prepares(last.ledger, rq, generation, now)
  {
    var original, claimed := w.file, J.Claim(w.file, generation, steer).state;
    worlds := [w];
    var w1 := EnterNew(w, c, owner, rq);
    Onward(worlds, w, w, w1);
    worlds := worlds + [w1];
    var w2 := CreateNew(w1, c, rq, L.Recovery(0, owner, J.FreshRecord(original, generation)), s, now);
    Onward(worlds, w, w1, w2);
    worlds := worlds + [w2];
    var w3 := CheckpointNew(w2, c, rq, 0, J.ClaimPending, Recorded(original, generation, owner, J.ClaimPending, original), now);
    Onward(worlds, w, w2, w3);
    worlds := worlds + [w3];
    var w4 := WriteState(w3, c, claimed);
    Onward(worlds, w, w3, w4);
    worlds := worlds + [w4];
    last := CheckpointNew(w4, c, rq, generation, J.RunClaimed, Recorded(original, generation, owner, J.RunClaimed, claimed), now);
    Onward(worlds, w, w4, last);
    worlds := worlds + [last];
  }

  /** From the claim through the remaining checkpoints to the prepared record and the admission. */
  lemma ClaimedRequestIsAdmitted(w: World, c: CallId, rq: L.Request, s: L.Snapshot, owner: nat, original: J.State,
                                 generation: J.Stamp, steer: J.Option<nat>, handle: ExecId, now: J.Stamp)
    returns (worlds: seq<World>, last: World)
    requires Inv(w) && w.lock == J.Some(c) && c in w.calls && w.calls[c] == Call(owner, Preparing(rq.id)) && owner > 0
    requires J.Claim(original, generation, steer).Claimed? && w.file == J.Claim(original, generation, steer).state
    requires Prepares(w.ledger, rq, generation, now) && L.TargetCurrent(s, rq.params.target) && handle !in w.execs
    ensures Path(worlds, w, last) && Inv(last) && Undisturbed(w, last) && last.lock.None? && c !in last.calls
    ensures last.file == w.file && Timely(last.ledger, rq.id, now)
    ensures handle in last.execs && last.execs[handle] == Exec(ClaimedContext(rq, original, generation, owner, steer), owner, false)
  {
    worlds := [w];
    var w1 := CheckpointNew(w, c, rq, generation, J.PlanExecuting, Recorded(original, generation, owner, J.PlanExecuting, w.file), now);
    Onward(worlds, w, w, w1);
    worlds := worlds + [w1];
    var w2 := CheckpointNew(w1, c, rq, generation, J.MissionApproved, Recorded(original, generation, owner, J.MissionApproved, w.file), now);
    Onward(worlds, w, w1, w2);
    worlds := worlds + [w2];
    var w3 := CheckpointNew(w2, c, rq, generation, J.ReplayRecorded, Recorded(original, generation, owner, J.ReplayRecorded, w.file), now);
    Onward(worlds, w, w2, w3);
    worlds := worlds + [w3];
    J.ClaimedPrepares(original, generation, steer);
    var w4 := PrepareNew(w3, c, rq, Recorded(original, generation, owner, J.Prepared, w.file), now);
    Onward(worlds, w, w3, w4);
    worlds := worlds + [w4];
    last := AdmitReady(w4, c, s, handle, now);
    Onward(worlds, w, w4, last);
    worlds := worlds + [last];
  }

  /** A new request over a resumable state: its claim is made, recorded and admitted. */
  lemma NewRequestIsAdmitted(w: World, c: CallId, rq: L.Request, s: L.Snapshot, owner: nat, generation: J.Stamp,
                             steer: J.Option<nat>, handle: ExecId, now: J.Stamp) returns (worlds: seq<World>, last: World)
    requires Inv(w) && w.lock.None? && c !in w.calls && owner > 0 && owner !in w.dead && handle !in w.execs
    requires CanCreate(w.ledger, rq, s) && L.ClockPast(w.ledger, now)
    requires J.Resumable(w.file) && w.file.updatedAt < generation
    ensures J.Claim(w.file, generation, steer).Claimed?
    ensures Path(worlds, w, last) && Inv(last) && Undisturbed(w, last) && last.lock.None? && c !in last.calls
    ensures last.file == J.Claim(w.file, generation, steer).state && Timely(last.ledger, rq.id, now)
    ensures handle in last.execs && last.execs[handle] == Exec(ClaimedContext(rq, w.file, generation, owner, steer), owner, false)
  {
    var before, mid := NewRequestIsClaimed(w, c, rq, s, owner, generation, steer, now);
    var after;
    after, last := ClaimedRequestIsAdmitted(mid, c, rq, s, owner, w.file, generation, steer, handle, now);
    Join(before, after, w, mid, last);
    worlds := before + after[1..];
  }

  /**
    A new request over a resumable state reaches its start: with a free lock, a current target, a clock
    past every receipt and a claim stamp past the state, there is a run of the protocol that claims the
    state, records and admits the operation and starts the provider once for this very operation.
  */
  lemma NewRequestReachesItsStart(w: World, c: CallId, rq: L.Request, s: L.Snapshot, owner: nat, generation: J.Stamp,
                                  steer: J.Option<nat>, handle: ExecId, now: J.Stamp) returns (worlds: seq<World>, last: World)
    requires Inv(w) && w.lock.None? && c !in w.calls && owner > 0 && owner !in w.dead && handle !in w.execs
    requires CanCreate(w.ledger, rq, s) && L.ClockPast(w.ledger, now)
    requires J.Resumable(w.file) && w.file.updatedAt < generation
    ensures J.Claim(w.file, generation, steer).Claimed?
    ensures Path(worlds, w, last) && last.starts == w.starts + [handle]
    ensures handle in last.execs && last.execs[handle].context == ClaimedContext(rq, w.file, generation, owner, steer)
  {
    var before, mid := NewRequestIsAdmitted(w, c, rq, s, owner, generation, steer, handle, now);
    J.ClaimedPrepares(w.file, generation, steer);
    var after;
    after, last := HandleReachesItsStart(mid, c, handle, now);
    Join(before, after, w, mid, last);
    worlds := before + after[1..];
  }

  // ---------- a manual stop between the lock and the failure save ----------

  /** A manual stop of whatever run stands in state.json, saved at `now`. */
  function Stopped(state: J.State, now: J.Stamp): J.State {
    state.(status := J.Paused, phase := "interrupt", pauseReason := "manual_stop", lastError := "", updatedAt := now)
  }

  lemma FailToNotify(w: World, c: CallId, handle: ExecId, state: J.State, cause: string) returns (w': World)
    requires Inv(w) && c in w.calls && w.calls[c].pc == Starting(handle, state) && cause != ""
    ensures Moves(w, w') && Inv(w') && Undisturbed(w, w') && w'.file == w.file && w'.execs == w.execs && w'.history == w.history
    ensures c in w'.calls && w'.calls[c].pc == Failing(handle, state, cause, false)
  {
    w' := Goto(w.(lock := if w.lock == J.Some(c) then J.None else w.lock), c, Failing(handle, state, cause, false));
    Go(w, c, Fail(cause), w');
  }

  lemma SaveOver(w: World, c: CallId, handle: ExecId, state: J.State, cause: string, now: J.Stamp) returns (w': World, saved: J.State)
    requires Inv(w) && c in w.calls && w.calls[c].pc == Failing(handle, state, cause, false) && handle in w.execs && now != 0
    requires J.ValidState(state) && w.file.runGeneration == state.runGeneration
    ensures Moves(w, w') && Inv(w') && w'.file == saved && w'.starts == w.starts
    ensures saved.status == J.Failed && saved.lastError == cause
    ensures w'.history == w.history + [FailureSave(w.execs[handle].context.record, state, w.file, saved)]
  {
    J.SaveGoesThrough(w.file, J.FailedClaim(state, cause), now);
    saved := J.SaveState(w.file, J.FailedClaim(state, cause), now, J.None).committed;
    w' := AfterFailure(Note(w.(file := saved), FailureSave(w.execs[handle].context.record, state, w.file, saved)), c);
    Go(w, c, SaveFailure(now, J.None), w');
  }

  /**
    The failure save takes a manual stop away. Wherever a new request can reach its start, there is a run
    in which its notification fails, the run is stopped, and the save replaces the stop by a failure:
    what it replaced is not the operation's unadvanced claim.
  */
  lemma StopIsOverwritten(w: World, c: CallId, rq: L.Request, s: L.Snapshot, owner: nat, generation: J.Stamp,
                          steer: J.Option<nat>, handle: ExecId, now: J.Stamp, cause: string)
    returns (worlds: seq<World>, last: World, expected: J.State)
    requires Inv(w) && w.lock.None? && c !in w.calls && owner > 0 && owner !in w.dead && handle !in w.execs
    requires CanCreate(w.ledger, rq, s) && L.ClockPast(w.ledger, now) && cause != ""
    requires J.Resumable(w.file) && w.file.updatedAt < generation
    ensures J.Claim(w.file, generation, steer).Claimed?
    ensures Path(worlds, w, last) && last.starts == w.starts && last.file.status == J.Failed && last.history != []
    ensures
      var record := ClaimedContext(rq, w.file, generation, owner, steer).record;
      && last.history[|last.history| - 1] == FailureSave(record, expected, Stopped(expected, now), last.file)
      && J.OwnUnadvancedClaim(record, expected) && !J.OwnUnadvancedClaim(record, Stopped(expected, now))
  {
    var before, mid := NewRequestIsAdmitted(w, c, rq, s, owner, generation, steer, handle, now);
    J.ClaimedPrepares(w.file, generation, steer);
    var after, ready;
    after, ready, expected := HandleReachesIntent(mid, c, handle, now);
    Join(before, after, w, mid, ready);
    worlds := before + after[1..];
    assert HasCall(ready, c) && CallOk(ready, c);
    var stopping;
    stopping, last := IntentIsStopped(ready, c, handle, expected, cause, now);
    Join(worlds, stopping, w, ready, last);
    worlds := worlds + stopping[1..];
  }

  /** After the recorded intent the notification fails, the run is stopped, and the failure is saved. */
  lemma IntentIsStopped(w: World, c: CallId, handle: ExecId, expected: J.State, cause: string, now: J.Stamp)
    returns (worlds: seq<World>, last: World)
    requires Inv(w) && c in w.calls && w.calls[c].pc == Starting(handle, expected) && handle in w.execs
    requires w.file == expected && cause != "" && now != 0
    ensures Path(worlds, w, last) && last.starts == w.starts && last.file.status == J.Failed
    ensures last.history == w.history + [FailureSave(w.execs[handle].context.record, expected, Stopped(expected, now), last.file)]
  {
    worlds := [w];
    var w1 := FailToNotify(w, c, handle, expected, cause);
    Onward(worlds, w, w, w1);
    worlds := worlds + [w1];
    var w2 := WriteState(w1, c, Stopped(expected, now));
    Onward(worlds, w, w1, w2);
    worlds := worlds + [w2];
    var saved;
    last, saved := SaveOver(w2, c, handle, expected, cause, now);
    Onward(worlds, w, w2, last);
    worlds := worlds + [last];
  }
}
