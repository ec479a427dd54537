/**
  The approval operation protocol as a machine of interleaved steps: any number of processes
  prepare, retry, alias, run and abort approvals of one session, other writers change state.json
  at any time, and processes or the whole host may die between any two steps
  (internal/runtime/approval_receipts.go:485-693, internal/runtime/approval.go:39-219).

  Ledger writes have the outcomes of the atomic commit: not published, published but
  unconfirmed, committed, and committed but reported as failed. A host failure brings back the durable ledger.
*/
module ApprovalProtocol {
  import J = ApprovalJournal
  import L = ApprovalLedger

  type CallId = nat
  type ExecId = nat
  type RunnerId = nat

  /** What a prepared approval carries: its operation and the claim it was prepared with. */
  datatype Context = Context(operation: string, target: L.Target, generation: J.Stamp, record: J.Record, state: J.State)

  datatype Exec = Exec(context: Context, runner: RunnerId, consumed: bool)

  /** The four compare-and-swap jobs on a prepared claim. */
  datatype Job =
    | FailAdmission(cause: string, uncertain: bool)
    | Execute
    | RequireReview(cause: string)
    | Abort

  /** Where a call stands. The first five hold the approval lock. */
  datatype Pc =
    | Entered(request: L.Request)
    | Preparing(operation: string)
    | Ready(context: Context)
    | Swapping(job: Job, exec: J.Option<ExecId>, context: Context, observed: J.Option<J.State>)
    | Swapped(job: Job, exec: J.Option<ExecId>, context: Context, committed: J.State)
    | Waiting(consumed: ExecId, abort: bool)
    | Starting(starting: ExecId, state: J.State)
    | Ran(ran: ExecId, state: J.State)
    | Failing(failing: ExecId, state: J.State, cause: string, afterRun: bool)

  predicate Locked(pc: Pc) {
    pc.Entered? || pc.Preparing? || pc.Ready? || pc.Swapping? || pc.Swapped?
  }

  /** The provider ran for this call. */
  predicate HasRun(pc: Pc) {
    pc.Ran? || (pc.Failing? && pc.afterRun)
  }

  /** The executable a call holds. */
  function Held(pc: Pc): J.Option<ExecId> {
    match pc
    case Swapping(_, exec, _, _) => exec
    case Swapped(_, exec, _, _) => exec
    case Waiting(e, _) => J.Some(e)
    case Starting(e, _) => J.Some(e)
    case Ran(e, _) => J.Some(e)
    case Failing(e, _, _, _) => J.Some(e)
    case _ => J.None
  }

  datatype Call = Call(runner: RunnerId, pc: Pc)

  /** What the writers after preparation did: a job's compare-and-swap, a journal record, and the save of a
      failure, which was built on `expected` and compares nothing but the run generation. */
  datatype Event =
    | ClaimSwap(record: J.Record, replaced: J.State, committed: J.State)
    | RecordWrite(generation: J.Stamp, record: J.Record)
    | FailureSave(record: J.Record, expected: J.State, replaced: J.State, saved: J.State)

  datatype World = World(
    ledger: L.Ledger,
    durable: L.Ledger,
    file: J.State,
    lock: J.Option<CallId>,
    calls: map<CallId, Call>,
    execs: map<ExecId, Exec>,
    dead: set<RunnerId>,
    starts: seq<ExecId>,
    history: seq<Event>)

  predicate Initial(w: World) {
    && w.ledger == L.EMPTY && w.durable == L.EMPTY && J.ValidState(w.file)
    && w.lock.None? && w.calls == map[] && w.execs == map[] && w.dead == {} && w.starts == [] && w.history == []
  }

  // ---------- steps ----------

  datatype Outcome = NotPublished | Unconfirmed(survives: bool) | Committed | CommittedThenFailed

  function Publish(w: World, next: L.Ledger, outcome: Outcome): World {
    match outcome
    case NotPublished => w
    case Unconfirmed(survives) => w.(ledger := next, durable := if survives then next else w.durable)
    case Committed => w.(ledger := next, durable := next)
    case CommittedThenFailed => w.(ledger := next, durable := next)
  }

  function Goto(w: World, c: CallId, pc: Pc): World
    requires c in w.calls
  {
    w.(calls := w.calls[c := w.calls[c].(pc := pc)])
  }

  /** The call returns; the lock is released if it held it. */
  function Return(w: World, c: CallId): World {
    w.(calls := w.calls - {c}, lock := if w.lock == J.Some(c) then J.None else w.lock)
  }

  function Next(job: Job, context: Context, current: J.State): J.State {
    match job
    case FailAdmission(cause, _) => J.FailedClaim(current, cause)
    case Execute => current
    case RequireReview(cause) => J.ReviewClaim(current, cause)
    case Abort => context.record.original
  }

  function JobPhase(job: Job): J.Phase {
    match job
    case FailAdmission(_, uncertain) => if uncertain then J.Aborted else J.PrepareFailed
    case Execute => J.Executing
    case RequireReview(_) => J.ReviewRequired
    case Abort => J.Aborted
  }

  /** The journal record a job writes over the state its swap committed. */
  function JobRecord(job: Job, context: Context, committed: J.State): J.Record {
    var record := match job
      case FailAdmission(cause, _) => context.record.(lastError := cause)
      case RequireReview(cause) => context.record.(lastError := cause)
      case _ => context.record;
    J.Checkpointed(record, JobPhase(job), committed)
  }

  predicate HasMessage(job: Job) {
    match job
    case FailAdmission(cause, _) => cause != ""
    case RequireReview(cause) => cause != ""
    case _ => true
  }

  datatype Step =
    | Enter(runner: RunnerId, request: L.Request)
    | Replay(outcome: Outcome, now: J.Stamp)
    | Resume(outcome: Outcome, now: J.Stamp)
    | Create(recovery: L.Recovery, rejection: string, snapshot: L.Snapshot, outcome: Outcome, now: J.Stamp)
    | Checkpoint(phase: J.Phase, recovery: L.Recovery, outcome: Outcome, now: J.Stamp)
    | Prepare(recovery: L.Recovery, outcome: Outcome, now: J.Stamp)
    | Admit(handle: ExecId, snapshot: L.Snapshot, outcome: Outcome, now: J.Stamp, cause: string)
    | Observe
    | Compare(now: J.Stamp, steer: J.Option<nat>)
    | Record(outcome: Outcome, now: J.Stamp, cause: string)
    | Consume(runner: RunnerId, exec: ExecId, abort: bool)
    | Check(job: Job, snapshot: L.Snapshot, approved: bool)
    | Start
    | Settle(cause: string, outcome: Outcome, now: J.Stamp)
    | Fail(cause: string)
    | SaveFailure(now: J.Stamp, steer: J.Option<nat>)
    | GiveUp
    | OtherWriter(state: J.State)
    | Crash(runner: RunnerId)
    | HostFailure(file: J.State)

  predicate At(w: World, c: CallId) {
    c in w.calls && (Locked(w.calls[c].pc) ==> w.lock == J.Some(c))
  }

  /** Lookup found a receipt that is no longer prepared: answer with it, binding a new alias first. */
  ghost predicate DoReplay(w: World, c: CallId, s: Step, w': World)
    requires s.Replay? && L.ValidLedger(w.ledger)
  {
    && At(w, c) && w.calls[c].pc.Entered?
    && var rq := w.calls[c].pc.request;
       var found := L.Find(w.ledger, rq);
    && s.now != 0 && found.Found? && found.receipt.stage != L.Prepared
    && if found.needsAlias && L.Bind(w.ledger, rq, found.receipt.id, s.now).Ok?
       then w' == Return(Publish(w, L.Bind(w.ledger, rq, found.receipt.id, s.now).value.ledger, s.outcome), c)
       else w' == Return(w, c)
  }

  /** A prepared receipt may go on with its preparation (or the call returns, by GiveUp). */
  ghost predicate DoResume(w: World, c: CallId, s: Step, w': World)
    requires s.Resume? && L.ValidLedger(w.ledger)
  {
    && At(w, c) && w.calls[c].pc.Entered?
    && var rq := w.calls[c].pc.request;
       var found := L.Find(w.ledger, rq);
    && s.now != 0 && found.Found? && found.receipt.stage == L.Prepared
    && if !found.needsAlias then w' == Goto(w, c, Preparing(found.receipt.id))
       else
         var bound := L.Bind(w.ledger, rq, found.receipt.id, s.now);
         bound.Ok? &&
         var published := Publish(w, bound.value.ledger, s.outcome);
         w' == if s.outcome.Committed? then Goto(published, c, Preparing(found.receipt.id)) else Return(published, c)
  }

  /** A new receipt: prepared when `rejection` is empty, otherwise rejected for good. */
  ghost predicate DoCreate(w: World, c: CallId, s: Step, w': World)
    requires s.Create? && L.ValidLedger(w.ledger)
  {
    && At(w, c) && w.calls[c].pc.Entered?
    && var rq := w.calls[c].pc.request;
       var created := L.Create(w.ledger, rq, s.recovery, s.rejection, s.snapshot, s.now);
    && s.now != 0 && L.Find(w.ledger, rq).NotFound? && created.Ok?
    && var published := Publish(w, created.value.ledger, s.outcome);
       w' == if s.outcome.Committed? && s.rejection == "" then Goto(published, c, Preparing(rq.id)) else Return(published, c)
  }

  /** Any checkpoint of the preparation itself, with any recovery content. */
  ghost predicate DoCheckpoint(w: World, c: CallId, s: Step, w': World)
    requires s.Checkpoint? && L.ValidLedger(w.ledger)
  {
    && At(w, c) && w.calls[c].pc.Preparing?
    && (s.phase == J.PrepareFailed || (J.Preparing(s.phase) && s.phase != J.Prepared))
    && var op := w.calls[c].pc.operation;
       op in w.ledger.operations &&
       var written := L.Checkpoint(w.ledger, op, L.Generation(w.ledger.operations[op]), s.phase, s.recovery, s.now);
       written.Ok? && w' == Publish(w, written.value.ledger, s.outcome)
  }

  /** The `prepared` checkpoint is only written when the recovery check accepts it. */
  ghost predicate DoPrepare(w: World, c: CallId, s: Step, w': World)
    requires s.Prepare? && L.ValidLedger(w.ledger)
  {
    && At(w, c) && w.calls[c].pc.Preparing?
    && var op := w.calls[c].pc.operation;
       op in w.ledger.operations && s.recovery.Recovery? &&
       var r := w.ledger.operations[op];
       var written := L.Checkpoint(w.ledger, op, L.Generation(r), J.Prepared, s.recovery, s.now);
    && J.PreparedJournal(s.recovery.generation, s.recovery.record)
    && L.Generation(r) == s.recovery.generation
    && written.Ok?
    && var published := Publish(w, written.value.ledger, s.outcome);
       var context := Context(op, r.params.target, s.recovery.generation, s.recovery.record, s.recovery.record.prepared);
       w' == if s.outcome.Committed? then Goto(published, c, Ready(context)) else published
  }

  /** Only an admission that returns no error hands out an executable. */
  ghost predicate DoAdmit(w: World, c: CallId, s: Step, w': World)
    requires s.Admit? && L.ValidLedger(w.ledger)
  {
    && At(w, c) && w.calls[c].pc.Ready?
    && var context := w.calls[c].pc.context;
       var admitted := L.Admit(w.ledger, context.operation, context.generation, s.snapshot, s.now);
       if admitted.Ok? && (s.outcome.Committed? || !admitted.value.written) then
         && s.handle !in w.execs
         && var published := Publish(w, admitted.value.ledger, s.outcome);
            w' == Return(published.(execs := published.execs[s.handle := Exec(context, w.calls[c].runner, false)]), c)
       else
         && s.cause != ""
         && var published := if admitted.Ok? then Publish(w, admitted.value.ledger, s.outcome) else w;
            var uncertain := admitted.Ok? && !s.outcome.NotPublished?;
            w' == Goto(published, c, Swapping(FailAdmission(s.cause, uncertain), J.None, context, J.None))
  }

  /** One observation of state.json: the claim must still be the prepared run. */
  ghost predicate DoObserve(w: World, c: CallId, w': World) {
    && At(w, c) && w.calls[c].pc.Swapping? && w.calls[c].pc.observed.None?
    && var pc := w.calls[c].pc;
       w' == if J.SamePreparedRun(pc.context.state, w.file)
             then Goto(w, c, pc.(observed := J.Some(w.file))) else Return(w, c)
  }

  /** The full compare-and-swap; when another writer came first the call observes again. */
  ghost predicate DoCompare(w: World, c: CallId, s: Step, w': World)
    requires s.Compare?
  {
    && At(w, c) && w.calls[c].pc.Swapping? && w.calls[c].pc.observed.Some? && s.now != 0
    && var pc := w.calls[c].pc;
       w' == match J.SwapState(w.file, pc.observed.value, Next(pc.job, pc.context, pc.observed.value), s.now, s.steer)
         case Saved(committed) =>
           Goto(w.(file := committed, history := w.history + [ClaimSwap(pc.context.record, w.file, committed)]), c,
                Swapped(pc.job, pc.exec, pc.context, committed))
         case NotSaved => Goto(w, c, pc.(observed := J.None))
         case Refused => Return(w, c)
  }

  function Note(w: World, e: Event): World {
    w.(history := w.history + [e])
  }

  /** The job's journal record; only recorded execution intent leads on to a start, and intent that may not
      have been recorded leads to the failure save. */
  ghost predicate DoRecord(w: World, c: CallId, s: Step, w': World)
    requires s.Record? && L.ValidLedger(w.ledger)
  {
    && At(w, c) && w.calls[c].pc.Swapped?
    && var pc := w.calls[c].pc;
       var recovery := L.Recovery(pc.context.generation, w.calls[c].runner, JobRecord(pc.job, pc.context, pc.committed));
       var written := L.Checkpoint(w.ledger, pc.context.operation, pc.context.generation, JobPhase(pc.job), recovery, s.now);
       written.Ok? && (!s.outcome.Committed? ==> s.cause != "") &&
       var noted := Note(w, RecordWrite(pc.context.generation, JobRecord(pc.job, pc.context, pc.committed)));
       var published := Publish(noted, written.value.ledger, s.outcome);
       w' == AfterRecord(published, c, s.outcome, s.cause)
  }

  function AfterRecord(w: World, c: CallId, outcome: Outcome, cause: string): World
    requires c in w.calls && w.calls[c].pc.Swapped?
  {
    var pc := w.calls[c].pc;
    if !pc.job.Execute? || pc.exec.None? then Return(w, c)
    else Goto(w.(lock := J.None), c, Intended(pc, outcome, cause))
  }

  function Intended(pc: Pc, outcome: Outcome, cause: string): Pc
    requires pc.Swapped? && pc.exec.Some?
  {
    if outcome.Committed? then Starting(pc.exec.value, pc.committed) else Failing(pc.exec.value, pc.committed, cause, false)
  }

  ghost predicate DoConsume(w: World, c: CallId, s: Step, w': World)
    requires s.Consume?
  {
    && c !in w.calls && s.runner !in w.dead
    && s.exec in w.execs && w.execs[s.exec].runner == s.runner && !w.execs[s.exec].consumed
    && w' == w.(calls := w.calls[c := Call(s.runner, Waiting(s.exec, s.abort))],
                execs := w.execs[s.exec := w.execs[s.exec].(consumed := true)])
  }

  /** Under the lock: the receipt must still be this admitted claim. Without an abort, the snapshot decides
      between execution and review: its target must be current and open, and `approved` says whether the
      plan records the approval of just this version and is in an execution status. */
  ghost predicate DoCheck(w: World, c: CallId, s: Step, w': World)
    requires s.Check?
  {
    && c in w.calls && w.calls[c].pc.Waiting? && w.lock.None? && w.calls[c].pc.consumed in w.execs
    && !s.job.FailAdmission? && (w.calls[c].pc.abort <==> s.job.Abort?) && HasMessage(s.job)
    && var e := w.calls[c].pc.consumed;
       && AdmittedAs(w.ledger, w.execs[e].context)
       && (!s.job.Abort? ==>
             && J.SamePreparedRun(w.execs[e].context.state, w.file)
             && (s.job.Execute? <==> s.approved && L.TargetCurrent(s.snapshot, w.execs[e].context.target)))
       && w' == Goto(w.(lock := J.Some(c)), c, Swapping(s.job, J.Some(e), w.execs[e].context, J.None))
  }

  ghost predicate DoSettle(w: World, c: CallId, s: Step, w': World)
    requires s.Settle? && L.ValidLedger(w.ledger)
  {
    && c in w.calls && w.calls[c].pc.Ran? && w.lock.None? && w.calls[c].pc.ran in w.execs
    && var context := w.execs[w.calls[c].pc.ran].context;
       var record := J.Checkpointed(context.record.(lastError := s.cause), J.Settled, w.file);
       var written := L.Checkpoint(w.ledger, context.operation, context.generation, J.Settled,
                                   L.Recovery(context.generation, w.calls[c].runner, record), s.now);
       && AdmittedAs(w.ledger, context) && w.file.runGeneration == context.generation
       && written.Ok?
       && w' == Return(Publish(Note(w, RecordWrite(context.generation, record)), written.value.ledger, s.outcome), c)
  }

  /** A call takes the approval lock; refused and unreadable requests return before this step. */
  predicate DoEnter(w: World, c: CallId, s: Step, w': World)
    requires s.Enter?
  {
    && c !in w.calls && w.lock.None? && s.runner !in w.dead
    && w' == w.(lock := J.Some(c), calls := w.calls[c := Call(s.runner, Entered(s.request))])
  }

  predicate DoStart(w: World, c: CallId, w': World) {
    && c in w.calls && w.calls[c].pc.Starting?
    && w' == Goto(w.(starts := w.starts + [w.calls[c].pc.starting]), c, Ran(w.calls[c].pc.starting, w.calls[c].pc.state))
  }

  /** The state RunPreparedApproval has in hand when an error other than a conflict ends it: what it was
      prepared with, or what its own swap committed. None where no failure save follows. */
  function InHand(w: World, pc: Pc): J.Option<J.State> {
    match pc
    case Waiting(e, abort) => if !abort && e in w.execs then J.Some(w.execs[e].context.state) else J.None
    case Swapping(job, exec, context, _) =>
      if exec.Some? && (job.Execute? || job.RequireReview?) then J.Some(context.state) else J.None
    case Swapped(job, exec, _, committed) => if exec.Some? && job.Execute? then J.Some(committed) else J.None
    case Starting(_, state) => J.Some(state)
    case Ran(_, state) => J.Some(state)
    case _ => J.None
  }

  /** An error that is no conflict: the approval lock is released, and the failure save comes next. */
  predicate DoFail(w: World, c: CallId, s: Step, w': World)
    requires s.Fail?
  {
    && At(w, c) && s.cause != ""
    && var pc := w.calls[c].pc;
    && InHand(w, pc).Some? && Held(pc).Some?
    && w' == Goto(w.(lock := if w.lock == J.Some(c) then J.None else w.lock), c,
                  Failing(Held(pc).value, InHand(w, pc).value, s.cause, pc.Ran?))
  }

  /** failBeforeRun: outside the approval lock, a plain save over whatever carries the same generation. */
  predicate DoSaveFailure(w: World, c: CallId, s: Step, w': World)
    requires s.SaveFailure?
  {
    && c in w.calls && w.calls[c].pc.Failing? && w.calls[c].pc.failing in w.execs && s.now != 0
    && var pc := w.calls[c].pc;
       var record := w.execs[pc.failing].context.record;
       match J.SaveState(w.file, J.FailedClaim(pc.state, pc.cause), s.now, s.steer)
       case Saved(saved) => w' == AfterFailure(Note(w.(file := saved), FailureSave(record, pc.state, w.file, saved)), c)
       case _ => w' == AfterFailure(w, c)
  }

  /** A failed run is still settled; before the run there is nothing to settle. */
  function AfterFailure(w: World, c: CallId): World
    requires c in w.calls && w.calls[c].pc.Failing?
  {
    var pc := w.calls[c].pc;
    if pc.afterRun then Goto(w, c, Ran(pc.failing, pc.state)) else Return(w, c)
  }

  predicate DoGiveUp(w: World, c: CallId, w': World) {
    c in w.calls && w' == Return(w, c)
  }

  predicate DoOtherWriter(w: World, s: Step, w': World)
    requires s.OtherWriter?
  {
    J.ValidState(s.state) && w' == w.(file := s.state)
  }

  /** A process dies: its calls end, its executables can never be consumed, its lock is released. */
  predicate DoCrash(w: World, s: Step, w': World)
    requires s.Crash?
  {
    var left := map d | d in w.calls && w.calls[d].runner != s.runner :: w.calls[d];
    w' == w.(dead := w.dead + {s.runner}, calls := left,
             lock := if w.lock.Some? && w.lock.value in left then w.lock else J.None)
  }

  /** Every process dies and only what was durable comes back. */
  predicate DoHostFailure(w: World, s: Step, w': World)
    requires s.HostFailure?
  {
    && J.ValidState(s.file)
    && w' == w.(ledger := w.durable, file := s.file, lock := J.None, calls := map[],
                dead := w.dead + set e | e in w.execs :: w.execs[e].runner)
  }

  ghost predicate Does(w: World, c: CallId, s: Step, w': World)
    requires L.ValidLedger(w.ledger)
  {
    match s
    case Enter(_, _) => DoEnter(w, c, s, w')
    case Replay(_, _) => DoReplay(w, c, s, w')
    case Resume(_, _) => DoResume(w, c, s, w')
    case Create(_, _, _, _, _) => DoCreate(w, c, s, w')
    case Checkpoint(_, _, _, _) => DoCheckpoint(w, c, s, w')
    case Prepare(_, _, _) => DoPrepare(w, c, s, w')
    case Admit(_, _, _, _, _) => DoAdmit(w, c, s, w')
    case Observe => DoObserve(w, c, w')
    case Compare(_, _) => DoCompare(w, c, s, w')
    case Record(_, _, _) => DoRecord(w, c, s, w')
    case Consume(_, _, _) => DoConsume(w, c, s, w')
    case Check(_, _, _) => DoCheck(w, c, s, w')
    case Start => DoStart(w, c, w')
    case Settle(_, _, _) => DoSettle(w, c, s, w')
    case Fail(_) => DoFail(w, c, s, w')
    case SaveFailure(_, _) => DoSaveFailure(w, c, s, w')
    case GiveUp => DoGiveUp(w, c, w')
    case OtherWriter(_) => DoOtherWriter(w, s, w')
    case Crash(_) => DoCrash(w, s, w')
    case HostFailure(_) => DoHostFailure(w, s, w')
  }

  // ---------- what may go wrong at any time ----------

  /** What a ledger write leaves: the file shows it unless it was not published, and a host failure keeps it
      when it was committed, reported or not, or when it survives by chance. */
  lemma PublishMeaning(w: World, next: L.Ledger, outcome: Outcome)
    ensures
      var p := Publish(w, next, outcome);
      && p == w.(ledger := p.ledger, durable := p.durable)
      && p.ledger == (if outcome == NotPublished then w.ledger else next)
      && p.durable == (if outcome in {Committed, CommittedThenFailed, Unconfirmed(true)} then next else w.durable)
  {
  }

  /** Any process may die in any world: exactly its calls are gone, its lock is free, and it never consumes
      another executable; nothing that was written is lost. */
  lemma ProcessMayDie(w: World, c: CallId, runner: RunnerId) returns (w': World)
    requires L.ValidLedger(w.ledger)
    ensures Does(w, c, Crash(runner), w')
    ensures w' == w.(dead := w.dead + {runner}, calls := w'.calls, lock := w'.lock)
    ensures forall d :: d in w'.calls <==> d in w.calls && w.calls[d].runner != runner
    ensures forall d :: d in w'.calls ==> w'.calls[d] == w.calls[d]
    ensures w'.lock == (if w.lock.Some? && w.lock.value in w'.calls then w.lock else J.None)
  {
    var left := map d | d in w.calls && w.calls[d].runner != runner :: w.calls[d];
    w' := w.(dead := w.dead + {runner}, calls := left,
             lock := if w.lock.Some? && w.lock.value in left then w.lock else J.None);
  }

  /** The host may fail in any world: only the durable ledger and some readable state come back, and no
      executable made before can be consumed. */
  lemma HostMayFail(w: World, c: CallId, file: J.State) returns (w': World)
    requires L.ValidLedger(w.ledger) && J.ValidState(file)
    ensures Does(w, c, HostFailure(file), w')
    ensures w'.ledger == w.durable == w'.durable && w'.file == file && w'.calls == map[] && w'.lock == J.None
    ensures forall e :: e in w.execs ==> e in w'.execs && w'.execs[e].runner in w'.dead
    ensures forall e :: e in w.execs && !w.execs[e].consumed ==> forall d, abort, w'' :: !DoConsume(w', d, Consume(w.execs[e].runner, e, abort), w'')
  {
    var runners := set e | e in w.execs :: w.execs[e].runner;
    w' := w.(ledger := w.durable, file := file, lock := J.None, calls := map[], dead := w.dead + runners);
  }

  /** Other writers may leave any readable state at any time. */
  lemma OthersMayWrite(w: World, c: CallId, state: J.State)
    requires L.ValidLedger(w.ledger) && J.ValidState(state)
    ensures Does(w, c, OtherWriter(state), w.(file := state))
  {
  }

  // ---------- the invariant ----------

  predicate AdmittedAs(l: L.Ledger, context: Context) {
    && context.operation in l.operations
    && var r := l.operations[context.operation];
       r.stage == L.Admitted && L.Generation(r) == context.generation && r.params.target == context.target
  }

  predicate ContextOk(context: Context) {
    J.PreparedJournal(context.generation, context.record) && context.state == context.record.prepared
  }

  /** The receipt phases after preparation. */
  predicate PastPreparation(p: J.Phase) {
    p in {J.Prepared, J.Executing, J.ReviewRequired, J.Settled, J.Aborted}
  }

  /** A receipt past preparation passes the recovery check. */
  predicate JournalOk(r: L.Receipt) {
    match r.phase
    case RejectedMark => true
    case AdmittedMark => r.recovery.Recovery? && J.PreparedJournal(r.recovery.generation, r.recovery.record)
    case InJournal(p) => PastPreparation(p) ==>
      r.recovery.Recovery? && r.recovery.record.phase == p && J.ValidJournal(r.recovery.generation, r.recovery.record)
  }

  ghost predicate JournalsOk(l: L.Ledger) {
    L.ValidLedger(l) && forall id :: L.Has(l, id) ==> JournalOk(l.operations[id])
  }

  predicate HasExec(w: World, e: ExecId) { e in w.execs }

  predicate HasCall(w: World, c: CallId) { c in w.calls }

  predicate ExecOk(w: World, e: ExecId)
    requires HasExec(w, e)
  {
    ContextOk(w.execs[e].context) && AdmittedAs(w.ledger, w.execs[e].context) && AdmittedAs(w.durable, w.execs[e].context)
  }

  /** What a call that has not yet an executable knows about its receipt. */
  predicate ReceiptOk(l: L.Ledger, context: Context, stillPrepared: bool) {
    && context.operation in l.operations
    && L.Generation(l.operations[context.operation]) == context.generation
    && l.operations[context.operation].params.target == context.target
    && l.operations[context.operation].stage in (if stillPrepared then {L.Prepared} else {L.Prepared, L.Admitted})
  }

  predicate CallOk(w: World, c: CallId)
    requires HasCall(w, c)
  {
    var pc := w.calls[c].pc;
    && (Locked(pc) ==> w.lock == J.Some(c))
    && (Held(pc).Some? ==> HasExec(w, Held(pc).value) && w.execs[Held(pc).value].consumed)
    && match pc
       case Preparing(op) => op in w.ledger.operations && w.ledger.operations[op].stage == L.Prepared
       case Ready(context) => ContextOk(context) && ReceiptOk(w.ledger, context, true)
       case Swapping(job, exec, context, observed) =>
         && ContextOk(context) && HasMessage(job) && (exec.None? ==> ReceiptOk(w.ledger, context, false) && !job.Execute?)
         && (exec.Some? ==> w.execs[exec.value].context == context)
         && (observed.Some? ==> J.SamePreparedRun(context.state, observed.value))
       case Swapped(job, exec, context, committed) =>
         && ContextOk(context) && (exec.None? ==> ReceiptOk(w.ledger, context, false) && !job.Execute?)
         && (exec.Some? ==> w.execs[exec.value].context == context)
         && J.ValidJournal(context.generation, JobRecord(job, context, committed))
       case Starting(e, state) => J.OwnUnadvancedClaim(w.execs[e].context.record, state)
       case Ran(e, state) => J.OwnUnadvancedClaim(w.execs[e].context.record, state)
       case Failing(e, state, cause, _) => J.OwnUnadvancedClaim(w.execs[e].context.record, state) && cause != ""
       case _ => true
  }

  /** A job's swap replaced the operation's own unadvanced claim; a record passes the recovery check; a
      failure was saved over the operation's own generation, and over its unadvanced claim exactly when
      that was still the prepared run. */
  predicate EventOk(e: Event) {
    match e
    case ClaimSwap(record, replaced, _) => J.OwnUnadvancedClaim(record, replaced)
    case RecordWrite(generation, record) => J.ValidJournal(generation, record)
    case FailureSave(record, expected, replaced, _) =>
      && replaced.runGeneration == record.claim
      && (J.OwnUnadvancedClaim(record, replaced) <==> J.SamePreparedRun(expected, replaced))
  }

  predicate Holds(w: World, c: CallId, e: ExecId) {
    c in w.calls && Held(w.calls[c].pc) == J.Some(e)
  }

  predicate Carries(w: World, e: ExecId, operation: string) {
    e in w.execs && w.execs[e].context.operation == operation
  }

  ghost predicate CallsOk(w: World) {
    forall c :: HasCall(w, c) ==> CallOk(w, c)
  }

  ghost predicate ExecsOk(w: World) {
    forall e :: HasExec(w, e) ==> ExecOk(w, e)
  }

  /** One executable per operation, one call per executable. */
  ghost predicate Unique(w: World) {
    && (forall e, f, op :: Carries(w, e, op) && Carries(w, f, op) ==> e == f)
    && (forall c, d, e :: Holds(w, c, e) && Holds(w, d, e) ==> c == d)
  }

  /** A started executable stays consumed, and only its own finished run may still hold it. */
  ghost predicate Started(w: World, e: ExecId) {
    HasExec(w, e) && w.execs[e].consumed && forall c :: Holds(w, c, e) ==> HasRun(w.calls[c].pc)
  }

  ghost predicate StartsOk(w: World) {
    && (forall e :: e in w.starts ==> Started(w, e))
    && (forall i, j :: 0 <= i < j < |w.starts| ==> w.starts[i] != w.starts[j])
  }

  ghost predicate HistoryOk(w: World) {
    forall i :: 0 <= i < |w.history| ==> EventOk(w.history[i])
  }

  /** The worlds a run may reach. */
  ghost function Consistent(): iset<World> {
    iset w: World |
      && JournalsOk(w.ledger) && JournalsOk(w.durable) && J.ValidState(w.file)
      && CallsOk(w) && ExecsOk(w) && Unique(w) && StartsOk(w) && HistoryOk(w)
  }

  ghost predicate Inv(w: World) {
    w in Consistent()
  }

  /** The worlds that publishing an acceptable ledger may lead to, with nothing else changed. */
  ghost function Publications(w: World): iset<World> {
    iset p: World |
      && p == w.(ledger := p.ledger, durable := p.durable)
      && JournalsOk(p.ledger) && JournalsOk(p.durable) && ExecsOk(p)
  }
}
