/**
  The steps of an approval call up to its admission keep the invariant: lookup, creation, the
  checkpoints of the preparation, and the admission that hands out an executable
  (internal/runtime/approval_receipts.go:485-693).
*/
module ApprovalAdmission {
  import opened ApprovalProtocol
  import J = ApprovalJournal
  import L = ApprovalLedger

  /** No other call depends on the ledger or holds the lock. */
  predicate Quiet(w: World, c: CallId) {
    w.lock.None? || w.lock == J.Some(c)
  }

  lemma OthersOk(w: World, w': World, c: CallId, d: CallId)
    requires Inv(w) && d != c && HasCall(w, d) && HasCall(w', d) && w'.calls[d] == w.calls[d]
    requires forall e :: HasExec(w, e) ==>
               HasExec(w', e) && w'.execs[e].context == w.execs[e].context && (w.execs[e].consumed ==> w'.execs[e].consumed)
    requires Quiet(w, c) || (w'.ledger == w.ledger && w'.lock == w.lock)
    ensures CallOk(w', d)
  {
    assert CallOk(w, d);
  }

  /** Every other call in `w'` was already there, unchanged. */
  ghost predicate OthersSame(w: World, w': World, c: CallId) {
    forall d :: HasCall(w', d) && d != c ==> HasCall(w, d) && w'.calls[d] == w.calls[d]
  }

  /** The call still holds what it held, or nothing. */
  predicate KeepsTicket(w: World, w': World, c: CallId) {
    HasCall(w', c) && Held(w'.calls[c].pc).Some? ==>
      HasCall(w, c) && Held(w.calls[c].pc) == Held(w'.calls[c].pc) && (HasRun(w.calls[c].pc) ==> HasRun(w'.calls[c].pc))
  }

  lemma TicketsKept(w: World, w': World, c: CallId)
    requires Inv(w) && OthersSame(w, w', c) && KeepsTicket(w, w', c)
    requires w'.execs == w.execs && w'.starts == w.starts
    ensures Unique(w') && StartsOk(w')
  {
    assert forall d, e :: Holds(w', d, e) ==> Holds(w, d, e) by {
      forall d, e | Holds(w', d, e)
        ensures Holds(w, d, e)
      {
        assert HasCall(w', d);
      }
    }
    forall e, f, op | Carries(w', e, op) && Carries(w', f, op)
      ensures e == f
    {
      assert Carries(w, e, op) && Carries(w, f, op);
    }
    forall e | e in w'.starts
      ensures Started(w', e)
    {
      assert Started(w, e) && HasExec(w', e);
      forall d | Holds(w', d, e)
        ensures HasRun(w'.calls[d].pc)
      {
        assert Holds(w, d, e) && HasCall(w', d);
      }
    }
  }

  /** A step of call `c` that leaves executables and starts alone. */
  lemma Frame(w: World, w': World, c: CallId)
    requires Inv(w)
    requires JournalsOk(w'.ledger) && JournalsOk(w'.durable) && J.ValidState(w'.file)
    requires w'.execs == w.execs && w'.starts == w.starts && ExecsOk(w') && HistoryOk(w')
    requires OthersSame(w, w', c) && KeepsTicket(w, w', c)
    requires Quiet(w, c) || (w'.ledger == w.ledger && w'.lock == w.lock)
    requires HasCall(w', c) ==> CallOk(w', c)
    ensures Inv(w')
  {
    TicketsKept(w, w', c);
    forall d | HasCall(w', d)
      ensures CallOk(w', d)
    {
      if d != c {
        OthersOk(w, w', c, d);
      }
    }
  }

  /** Publishing a ledger that extends the current one keeps every admission, whatever survives. */
  lemma PublishKeeps(w: World, next: L.Ledger, outcome: Outcome)
    requires Inv(w) && L.Extends(w.ledger, next) && JournalsOk(next)
    ensures
      var w' := Publish(w, next, outcome);
      w' in Publications(w) && L.Extends(w.ledger, w'.ledger)
  {
    var w' := Publish(w, next, outcome);
    L.ExtendsReflexive(w.ledger);
    forall e | HasExec(w', e)
      ensures ExecOk(w', e)
    {
      assert HasExec(w, e) && ExecOk(w, e);
      var op := w.execs[e].context.operation;
      assert L.Has(w.ledger, op) && L.Kept(w.ledger, next, op);
    }
  }

  /** Changing one receipt into one that passes keeps the journals. */
  lemma JournalsGrow(l: L.Ledger, next: L.Ledger, changed: string)
    requires JournalsOk(l) && L.ValidLedger(next)
    requires forall id :: L.Has(next, id) && id != changed ==> L.Has(l, id) && next.operations[id] == l.operations[id]
    requires L.Has(next, changed) ==> JournalOk(next.operations[changed])
    ensures JournalsOk(next)
  {
  }

  lemma JournalsSame(l: L.Ledger, next: L.Ledger)
    requires JournalsOk(l) && L.ValidLedger(next) && next.operations == l.operations
    ensures JournalsOk(next)
  {
    forall id | L.Has(next, id)
      ensures JournalOk(next.operations[id])
    {
      assert L.Has(l, id);
    }
  }

  lemma EnterKeeps(w: World, c: CallId, s: Step, w': World)
    requires Inv(w) && s.Enter? && DoEnter(w, c, s, w')
    ensures Inv(w')
    ensures w'.execs.Keys == w.execs.Keys
  {
    SameLedgers(w, w');
    Frame(w, w', c);
  }

  lemma SameLedgers(w: World, w': World)
    requires Inv(w) && w'.ledger == w.ledger && w'.durable == w.durable && w'.execs == w.execs
    ensures ExecsOk(w')
  {
    forall e | HasExec(w', e)
      ensures ExecOk(w', e)
    {
      assert HasExec(w, e) && ExecOk(w, e);
    }
  }

  lemma NothingPublished(w: World)
    requires Inv(w)
    ensures w in Publications(w)
  {
    SameLedgers(w, w);
  }

  lemma ReplayKeeps(w: World, c: CallId, s: Step, w': World)
    requires Inv(w) && s.Replay? && DoReplay(w, c, s, w')
    ensures Inv(w')
    ensures w'.execs.Keys == w.execs.Keys
  {
    assert HasCall(w, c) && CallOk(w, c);
    var rq := w.calls[c].pc.request;
    var found := L.Find(w.ledger, rq);
    L.ExtendsReflexive(w.ledger);
    if found.needsAlias && L.Bind(w.ledger, rq, found.receipt.id, s.now).Ok? {
      BindKeeps(w, rq, found.receipt.id, s.now, s.outcome);
      var published := Publish(w, L.Bind(w.ledger, rq, found.receipt.id, s.now).value.ledger, s.outcome);
      ReturnKeeps(w, published, w', c);
    } else {
      NothingPublished(w);
      ReturnKeeps(w, w, w', c);
    }
  }

  /** Ending a call after a publication. */
  lemma ReturnKeeps(w: World, published: World, w': World, c: CallId)
    requires Inv(w) && HasCall(w, c)
    requires published in Publications(w)
    requires Quiet(w, c) || published.ledger == w.ledger
    requires w' == Return(published, c)
    ensures Inv(w')
  {
    forall e | HasExec(w', e)
      ensures ExecOk(w', e)
    {
      assert HasExec(published, e) && ExecOk(published, e);
    }
    Frame(w, w', c);
  }

  lemma BindKeeps(w: World, rq: L.Request, operation: string, now: J.Stamp, outcome: Outcome)
    requires Inv(w) && L.Bind(w.ledger, rq, operation, now).Ok?
    ensures
      var next := L.Bind(w.ledger, rq, operation, now).value.ledger;
      next.operations == w.ledger.operations && Publish(w, next, outcome) in Publications(w)
  {
    var next := L.Bind(w.ledger, rq, operation, now).value.ledger;
    L.BindExtends(w.ledger, rq, operation, now);
    JournalsSame(w.ledger, next);
    PublishKeeps(w, next, outcome);
  }

  lemma ResumeKeeps(w: World, c: CallId, s: Step, w': World)
    requires Inv(w) && s.Resume? && DoResume(w, c, s, w')
    ensures Inv(w')
    ensures w'.execs.Keys == w.execs.Keys
  {
    assert HasCall(w, c) && CallOk(w, c);
    var rq := w.calls[c].pc.request;
    var found := L.Find(w.ledger, rq);
    L.FindIsCanonical(w.ledger, rq);
    if !found.needsAlias {
      SameLedgers(w, w');
      Frame(w, w', c);
    } else {
      var bound := L.Bind(w.ledger, rq, found.receipt.id, s.now);
      BindKeeps(w, rq, found.receipt.id, s.now, s.outcome);
      var published := Publish(w, bound.value.ledger, s.outcome);
      if s.outcome.Committed? {
        GotoKeeps(w, published, w', c, Preparing(found.receipt.id));
      } else {
        ReturnKeeps(w, published, w', c);
      }
    }
  }

  /** Moving the lock holder on after a publication. */
  lemma GotoKeeps(w: World, published: World, w': World, c: CallId, pc: Pc)
    requires Inv(w) && HasCall(w, c) && w.lock == J.Some(c)
    requires published in Publications(w)
    requires w' == Goto(published, c, pc) && CallOk(w', c)
    requires Held(pc).Some? ==> Held(w.calls[c].pc) == Held(pc) && (HasRun(w.calls[c].pc) ==> HasRun(pc))
    ensures Inv(w')
  {
    forall e | HasExec(w', e)
      ensures ExecOk(w', e)
    {
      assert HasExec(published, e) && ExecOk(published, e);
    }
    Frame(w, w', c);
  }

  lemma CreateKeeps(w: World, c: CallId, s: Step, w': World)
    requires Inv(w) && s.Create? && DoCreate(w, c, s, w')
    ensures Inv(w')
    ensures w'.execs.Keys == w.execs.Keys
  {
    assert HasCall(w, c) && CallOk(w, c);
    var rq := w.calls[c].pc.request;
    L.CreateEffect(w.ledger, rq, s.recovery, s.rejection, s.snapshot, s.now);
    var change := L.Create(w.ledger, rq, s.recovery, s.rejection, s.snapshot, s.now).value;
    NewReceiptKeeps(w, c, change.ledger, change.receipt, s.outcome, w');
  }

  lemma NewReceiptKeeps(w: World, c: CallId, next: L.Ledger, r: L.Receipt, outcome: Outcome, w': World)
    requires Inv(w) && HasCall(w, c) && w.lock == J.Some(c)
    requires L.Extends(w.ledger, next) && next.operations == w.ledger.operations[r.id := r]
    requires r.phase == L.RejectedMark || (r.phase == L.InJournal(J.Validated) && r.stage == L.Prepared)
    requires w' == if outcome.Committed? && r.stage == L.Prepared
                   then Goto(Publish(w, next, outcome), c, Preparing(r.id)) else Return(Publish(w, next, outcome), c)
    ensures Inv(w')
  {
    JournalsGrow(w.ledger, next, r.id) by {
      assert forall id :: L.Has(next, id) && id != r.id ==> L.Has(w.ledger, id);
    }
    PublishKeeps(w, next, outcome);
    var published := Publish(w, next, outcome);
    if outcome.Committed? && r.stage == L.Prepared {
      GotoKeeps(w, published, w', c, Preparing(r.id));
    } else {
      ReturnKeeps(w, published, w', c);
    }
  }

  /** A checkpoint changes one receipt, keeping its stage, and the change passes the check. */
  lemma CheckpointExtends(l: L.Ledger, op: string, generation: J.Stamp, phase: J.Phase, recovery: L.Recovery, now: J.Stamp)
    requires JournalsOk(l) && L.Checkpoint(l, op, generation, phase, recovery, now).Ok?
    requires PastPreparation(phase) ==> recovery.record.phase == phase && J.ValidJournal(recovery.generation, recovery.record)
    ensures
      var next := L.Checkpoint(l, op, generation, phase, recovery, now).value.ledger;
      && L.Extends(l, next) && JournalsOk(next) && next.operations[op].stage == l.operations[op].stage
      && L.Generation(next.operations[op]) == recovery.generation
      && next.operations[op].params == l.operations[op].params
  {
    L.CheckpointPublishes(l, op, generation, phase, recovery, now);
    var next := L.Checkpoint(l, op, generation, phase, recovery, now).value.ledger;
    assert L.Has(l, op) && L.Kept(l, next, op);
    JournalsGrow(l, next, op);
  }

  lemma CheckpointKeeps(w: World, c: CallId, s: Step, w': World)
    requires Inv(w) && s.Checkpoint? && DoCheckpoint(w, c, s, w')
    ensures Inv(w')
    ensures w'.execs.Keys == w.execs.Keys
  {
    assert HasCall(w, c) && CallOk(w, c);
    var pc := w.calls[c].pc;
    var generation := L.Generation(w.ledger.operations[pc.operation]);
    WrittenKeeps(w, pc.operation, generation, s.phase, s.recovery, s.now, s.outcome);
    StaysPreparing(w, w', w', c);
  }

  /** Publishing a checkpoint of a receipt, whatever survives of it. */
  lemma WrittenKeeps(w: World, op: string, generation: J.Stamp, phase: J.Phase, recovery: L.Recovery, now: J.Stamp, outcome: Outcome)
    requires Inv(w) && L.Checkpoint(w.ledger, op, generation, phase, recovery, now).Ok?
    requires PastPreparation(phase) ==> recovery.record.phase == phase && J.ValidJournal(recovery.generation, recovery.record)
    ensures
      var next := L.Checkpoint(w.ledger, op, generation, phase, recovery, now).value.ledger;
      var published := Publish(w, next, outcome);
      && published in Publications(w) && L.Extends(w.ledger, published.ledger)
      && op in published.ledger.operations && published.ledger.operations[op].stage == w.ledger.operations[op].stage
  {
    CheckpointExtends(w.ledger, op, generation, phase, recovery, now);
    PublishKeeps(w, L.Checkpoint(w.ledger, op, generation, phase, recovery, now).value.ledger, outcome);
  }

  lemma PrepareKeeps(w: World, c: CallId, s: Step, w': World)
    requires Inv(w) && s.Prepare? && DoPrepare(w, c, s, w')
    ensures Inv(w')
    ensures w'.execs.Keys == w.execs.Keys
  {
    assert HasCall(w, c) && CallOk(w, c);
    var pc := w.calls[c].pc;
    var r := w.ledger.operations[pc.operation];
    var next := L.Checkpoint(w.ledger, pc.operation, L.Generation(r), J.Prepared, s.recovery, s.now).value.ledger;
    WrittenKeeps(w, pc.operation, L.Generation(r), J.Prepared, s.recovery, s.now, s.outcome);
    var published := Publish(w, next, s.outcome);
    var context := Context(pc.operation, r.params.target, s.recovery.generation, s.recovery.record, s.recovery.record.prepared);
    assert ContextOk(context);
    PreparedReceipt(w.ledger, context, s.recovery, s.now);
    AfterPrepare(w, published, w', c, context, s.outcome);
  }

  /** What a prepared receipt is known by after its checkpoint. */
  lemma PreparedReceipt(l: L.Ledger, context: Context, recovery: L.Recovery, now: J.Stamp)
    requires JournalsOk(l) && context.operation in l.operations && recovery.Recovery?
    requires context.generation == recovery.generation == L.Generation(l.operations[context.operation])
    requires context.target == l.operations[context.operation].params.target
    requires L.Checkpoint(l, context.operation, context.generation, J.Prepared, recovery, now).Ok?
    requires recovery.record.phase == J.Prepared && J.ValidJournal(recovery.generation, recovery.record)
    requires l.operations[context.operation].stage == L.Prepared
    ensures ReceiptOk(L.Checkpoint(l, context.operation, context.generation, J.Prepared, recovery, now).value.ledger, context, true)
  {
    CheckpointExtends(l, context.operation, context.generation, J.Prepared, recovery, now);
  }

  lemma AfterPrepare(w: World, published: World, w': World, c: CallId, context: Context, outcome: Outcome)
    requires Inv(w) && HasCall(w, c) && w.lock == J.Some(c) && w.calls[c].pc.Preparing?
    requires published in Publications(w)
    requires L.Extends(w.ledger, published.ledger)
    requires ContextOk(context) && (outcome.Committed? ==> ReceiptOk(published.ledger, context, true))
    requires w' == if outcome.Committed? then Goto(published, c, Ready(context)) else published
    requires w.calls[c].pc.operation in published.ledger.operations
    requires published.ledger.operations[w.calls[c].pc.operation].stage == L.Prepared
    ensures Inv(w')
  {
    if outcome.Committed? {
      PreparedCommits(w, published, w', c, context);
    } else {
      StaysPreparing(w, published, w', c);
    }
  }

  lemma PreparedCommits(w: World, published: World, w': World, c: CallId, context: Context)
    requires Inv(w) && HasCall(w, c) && w.lock == J.Some(c) && Held(w.calls[c].pc).None?
    requires published in Publications(w)
    requires ContextOk(context) && ReceiptOk(published.ledger, context, true)
    requires w' == Goto(published, c, Ready(context))
    ensures Inv(w')
  {
    GotoKeeps(w, published, w', c, Ready(context));
  }

  lemma StaysPreparing(w: World, published: World, w': World, c: CallId)
    requires Inv(w) && HasCall(w, c) && w.lock == J.Some(c) && w.calls[c].pc.Preparing?
    requires published in Publications(w)
    requires w.calls[c].pc.operation in published.ledger.operations
    requires published.ledger.operations[w.calls[c].pc.operation].stage == L.Prepared
    requires w' == published
    ensures Inv(w')
  {
    assert w' == Goto(published, c, w.calls[c].pc);
    GotoKeeps(w, published, w', c, w.calls[c].pc);
  }

  /** Under the lock the receipt is still prepared, so an admission that succeeds also publishes. */
  lemma AdmissionChangesStage(l: L.Ledger, context: Context, snapshot: L.Snapshot, now: J.Stamp)
    requires JournalsOk(l) && ReceiptOk(l, context, true)
    requires L.Admit(l, context.operation, context.generation, snapshot, now).Ok?
    ensures
      var change := L.Admit(l, context.operation, context.generation, snapshot, now).value;
      && change.written && L.Extends(l, change.ledger) && JournalsOk(change.ledger)
      && AdmittedAs(change.ledger, context)
  {
    var change := L.Admit(l, context.operation, context.generation, snapshot, now).value;
    L.AdmitEffect(l, context.operation, context.generation, snapshot, now);
    AdmittedJournalsOk(l, change.ledger, context.operation);
  }

  lemma AdmittedJournalsOk(l: L.Ledger, next: L.Ledger, operation: string)
    requires JournalsOk(l) && L.Extends(l, next) && L.Has(l, operation) && L.Has(next, operation)
    requires l.operations[operation].phase == L.InJournal(J.Prepared) && l.operations[operation].stage == L.Prepared
    requires L.Generation(l.operations[operation]) != 0
    requires next.operations[operation].phase == L.AdmittedMark && next.operations[operation].recovery == l.operations[operation].recovery
    requires next.operations == l.operations[operation := next.operations[operation]]
    ensures JournalsOk(next)
  {
    assert JournalOk(l.operations[operation]);
    forall id | L.Has(next, id)
      ensures JournalOk(next.operations[id])
    {
      assert id != operation ==> L.Has(l, id) && next.operations[id] == l.operations[id];
    }
  }

  lemma AdmitKeeps(w: World, c: CallId, s: Step, w': World)
    requires Inv(w) && s.Admit? && DoAdmit(w, c, s, w')
    ensures Inv(w')
  {
    assert HasCall(w, c) && CallOk(w, c);
    var context := w.calls[c].pc.context;
    var admitted := L.Admit(w.ledger, context.operation, context.generation, s.snapshot, s.now);
    if admitted.Ok? {
      AdmissionChangesStage(w.ledger, context, s.snapshot, s.now);
    }
    if admitted.Ok? && s.outcome.Committed? {
      HandOutKeeps(w, c, context, admitted.value.ledger, s.handle, w');
    } else {
      AdmissionErrorKeeps(w, c, context, if admitted.Ok? then admitted.value.ledger else w.ledger,
                          if admitted.Ok? then s.outcome else NotPublished, w');
    }
  }

  lemma AdmissionErrorKeeps(w: World, c: CallId, context: Context, next: L.Ledger, outcome: Outcome, w': World)
    requires Inv(w) && HasCall(w, c) && w.calls[c].pc == Ready(context) && w.lock == J.Some(c)
    requires next == w.ledger || (L.Extends(w.ledger, next) && JournalsOk(next))
    requires HasCall(w', c) && w' == Goto(Publish(w, next, outcome), c, w'.calls[c].pc)
    requires w'.calls[c].pc.Swapping? && w'.calls[c].pc == Swapping(w'.calls[c].pc.job, J.None, context, J.None)
    requires w'.calls[c].pc.job.FailAdmission? && w'.calls[c].pc.job.cause != ""
    ensures Inv(w')
  {
    L.ExtendsReflexive(w.ledger);
    PublishKeeps(w, next, outcome);
    RefusalKeeps(w, c, context, Publish(w, next, outcome), w');
  }

  /** An admission error leads to the compensating swap, never to an executable. */
  lemma RefusalKeeps(w: World, c: CallId, context: Context, published: World, w': World)
    requires Inv(w) && HasCall(w, c) && w.calls[c].pc == Ready(context) && w.lock == J.Some(c)
    requires published in Publications(w)
    requires L.Extends(w.ledger, published.ledger)
    requires HasCall(w', c) && w' == Goto(published, c, w'.calls[c].pc)
    requires w'.calls[c].pc.Swapping? && w'.calls[c].pc == Swapping(w'.calls[c].pc.job, J.None, context, J.None)
    requires w'.calls[c].pc.job.FailAdmission? && w'.calls[c].pc.job.cause != ""
    ensures Inv(w')
  {
    assert CallOk(w, c) && L.Has(w.ledger, context.operation);
    assert L.Kept(w.ledger, published.ledger, context.operation);
    GotoKeeps(w, published, w', c, w'.calls[c].pc);
  }

  /** The handed-out executable is the operation's first: until now its receipt was only prepared. */
  lemma HandOutKeeps(w: World, c: CallId, context: Context, next: L.Ledger, handle: ExecId, w': World)
    requires Inv(w) && HasCall(w, c) && w.calls[c].pc == Ready(context) && w.lock == J.Some(c) && !HasExec(w, handle)
    requires L.Extends(w.ledger, next) && JournalsOk(next) && AdmittedAs(next, context)
    requires
      var published := w.(ledger := next, durable := next);
      w' == Return(published.(execs := published.execs[handle := Exec(context, w.calls[c].runner, false)]), c)
    ensures Inv(w')
  {
    assert CallOk(w, c);
    PublishKeeps(w, next, Committed);
    var published := Publish(w, next, Committed);
    var ended := Return(published, c);
    ReturnKeeps(w, published, ended, c);
    assert w' == ended.(execs := ended.execs[handle := Exec(context, w.calls[c].runner, false)]);
    forall e | HasExec(w, e)
      ensures w.execs[e].context.operation != context.operation
    {
      assert ExecOk(w, e);
    }
    NewExecKeeps(ended, w', handle, Exec(context, w.calls[c].runner, false));
  }

  lemma NewExecKeeps(w: World, w': World, handle: ExecId, x: Exec)
    requires Inv(w) && !HasExec(w, handle) && w' == w.(execs := w.execs[handle := x])
    requires ContextOk(x.context) && AdmittedAs(w.ledger, x.context) && AdmittedAs(w.durable, x.context) && !x.consumed
    requires forall e :: HasExec(w, e) ==> w.execs[e].context.operation != x.context.operation
    ensures Inv(w')
  {
    forall e | HasExec(w', e)
      ensures ExecOk(w', e)
    {
      assert e != handle ==> HasExec(w, e) && ExecOk(w, e);
    }
    NewExecUnique(w, w', handle, x);
    CallsKeptByExecs(w, w');
    TicketsSame(w, w');
  }

  lemma NewExecUnique(w: World, w': World, handle: ExecId, x: Exec)
    requires Inv(w) && !HasExec(w, handle) && w' == w.(execs := w.execs[handle := x])
    requires forall e :: HasExec(w, e) ==> w.execs[e].context.operation != x.context.operation
    ensures forall e, f, op :: Carries(w', e, op) && Carries(w', f, op) ==> e == f
  {
    forall e, f, op | Carries(w', e, op) && Carries(w', f, op)
      ensures e == f
    {
      assert e != handle ==> Carries(w, e, op) && HasExec(w, e);
      assert f != handle ==> Carries(w, f, op) && HasExec(w, f);
    }
  }

  /** Calls do not mind executables that are added or consumed. */
  lemma CallsKeptByExecs(w: World, w': World)
    requires Inv(w) && w' == w.(execs := w'.execs)
    requires forall e :: HasExec(w, e) ==>
               HasExec(w', e) && w'.execs[e].context == w.execs[e].context && (w.execs[e].consumed ==> w'.execs[e].consumed)
    ensures CallsOk(w')
  {
    forall d | HasCall(w', d)
      ensures CallOk(w', d)
    {
      assert HasCall(w, d) && CallOk(w, d);
    }
  }

  /** Holding and starting do not depend on executables that were added or consumed meanwhile. */
  lemma TicketsSame(w: World, w': World)
    requires Inv(w) && w'.calls == w.calls && w'.starts == w.starts
    requires forall e :: HasExec(w, e) ==> HasExec(w', e) && (w.execs[e].consumed ==> w'.execs[e].consumed)
    ensures StartsOk(w')
    ensures forall c, d, e :: Holds(w', c, e) && Holds(w', d, e) ==> c == d
  {
    forall c, d, e | Holds(w', c, e) && Holds(w', d, e)
      ensures c == d
    {
      assert Holds(w, c, e) && Holds(w, d, e);
    }
    forall e | e in w'.starts
      ensures Started(w', e)
    {
      assert Started(w, e);
      forall d | Holds(w', d, e)
        ensures HasRun(w'.calls[d].pc)
      {
        assert Holds(w, d, e);
      }
    }
  }
}
