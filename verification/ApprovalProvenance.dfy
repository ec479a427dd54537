/**
  Where the facts of a run come from: every receipt from a creation over a snapshot that showed its
  target open, every executable from an admission over such a snapshot, and every start from an
  execution intent that its own call recorded (internal/session/approval.go:127-151,
  internal/session/approval_receipt.go:716-830, internal/runtime/approval.go:39-219).
*/
module ApprovalProvenance {
  import opened ApprovalProtocol
  import J = ApprovalJournal
  import L = ApprovalLedger
  import S = ApprovalSafety

  datatype Taken = Taken(call: CallId, step: Step)

  /** The steps that lead from world `i` of a run to the next. */
  ghost function StepsAt(worlds: seq<World>, i: nat): iset<Taken>
    requires i < |worlds| - 1
  {
    iset t: Taken | L.ValidLedger(worlds[i].ledger) && Does(worlds[i], t.call, t.step, worlds[i + 1])
  }

  ghost predicate StepAt(worlds: seq<World>, i: nat, c: CallId, s: Step) {
    i < |worlds| - 1 && Taken(c, s) in StepsAt(worlds, i)
  }

  function Last(worlds: seq<World>): World
    requires |worlds| > 0
  {
    worlds[|worlds| - 1]
  }

  /** A run of more than one world is a shorter run and one more step. */
  lemma LastStep(worlds: seq<World>) returns (c: CallId, s: Step)
    requires S.Run(worlds) && |worlds| > 1
    ensures S.Run(worlds[..|worlds| - 1]) && Inv(Last(worlds[..|worlds| - 1]))
    ensures StepAt(worlds, |worlds| - 2, c, s)
  {
    S.RunKeeps(worlds[..|worlds| - 1]);
    assert S.Moves(worlds[|worlds| - 2], worlds[|worlds| - 1]);
    c, s :| Does(worlds[|worlds| - 2], c, s, worlds[|worlds| - 1]);
  }

  lemma StepStays(worlds: seq<World>, i: nat, c: CallId, s: Step)
    requires |worlds| > 1 && StepAt(worlds[..|worlds| - 1], i, c, s)
    ensures StepAt(worlds, i, c, s)
    ensures worlds[..|worlds| - 1][i] == worlds[i] && worlds[..|worlds| - 1][i + 1] == worlds[i + 1]
  {
  }

  // ---------- what one step may change ----------

  predicate StartingOf(w: World, c: CallId, e: ExecId) {
    c in w.calls && w.calls[c].pc.Starting? && w.calls[c].pc.starting == e
  }

  /** An executable keeps what it was made with. */
  predicate Remains(w: World, w': World, e: ExecId) {
    e in w.execs ==> e in w'.execs && w'.execs[e].context == w.execs[e].context && w'.execs[e].runner == w.execs[e].runner
  }

  /** A call gets hold of an executable only by consuming it, unconsumed, in the living process it was
      made in. */
  predicate ConsumesFirst(w: World, c: CallId, s: Step, w': World, d: CallId, e: ExecId) {
    Holds(w', d, e) && !Holds(w, d, e) ==>
      && d == c && s.Consume? && s.exec == e && e in w.execs && !w.execs[e].consumed
      && s.runner == w.execs[e].runner == w'.calls[d].runner && s.runner !in w.dead
  }

  /** The call is on its way from its last check to the start of `e`. */
  predicate ExecutingOf(w: World, c: CallId, e: ExecId) {
    c in w.calls &&
    match w.calls[c].pc
    case Swapping(job, exec, _, _) => job.Execute? && exec == J.Some(e)
    case Swapped(job, exec, _, _) => job.Execute? && exec == J.Some(e)
    case Starting(starting, _) => starting == e
    case _ => false
  }

  /** A call sets out to execute only over a snapshot that shows the target of what it holds as current,
      open and approved. */
  predicate ChecksFirst(w: World, c: CallId, s: Step, w': World, d: CallId, e: ExecId) {
    ExecutingOf(w', d, e) && !ExecutingOf(w, d, e) ==>
      && d == c && s.Check? && s.approved && s.snapshot.open
      && e in w.execs && s.snapshot.target == w.execs[e].context.target && Holds(w, c, e)
  }

  /** A call is about to start only after its own execution intent was recorded and committed. */
  predicate IntendsFirst(w: World, c: CallId, s: Step, w': World, d: CallId, e: ExecId) {
    StartingOf(w', d, e) && !StartingOf(w, d, e) ==>
      && d == c && s.Record? && s.outcome.Committed?
      && c in w.calls && w.calls[c].pc.Swapped? && w.calls[c].pc.job.Execute? && w.calls[c].pc.exec == J.Some(e)
  }

  /** The provider starts only for a call that was about to start it. */
  predicate StartsIntended(w: World, c: CallId, s: Step, w': World) {
    w'.starts == w.starts ||
    (s.Start? && c in w.calls && w.calls[c].pc.Starting? && w'.starts == w.starts + [w.calls[c].pc.starting])
  }

  /** What a step may do to call `d` and executable `e`. */
  ghost function Traces(w: World, c: CallId, s: Step, d: CallId, e: ExecId): iset<World> {
    iset w': World |
      && Remains(w, w', e) && ConsumesFirst(w, c, s, w', d, e) && ChecksFirst(w, c, s, w', d, e)
      && IntendsFirst(w, c, s, w', d, e) && StartsIntended(w, c, s, w')
  }

  ghost predicate Traced(w: World, c: CallId, s: Step, w': World, d: CallId, e: ExecId) {
    w' in Traces(w, c, s, d, e)
  }

  /** A step that makes no executable and starts nothing, and after which its call has ended, or holds no
      more than before and is not on its way to a start. */
  predicate Idle(w: World, c: CallId, w': World) {
    && w'.execs == w.execs && w'.starts == w.starts
    && (w'.calls == w.calls || w'.calls == w.calls - {c} || (c in w'.calls && w'.calls == w.calls[c := w'.calls[c]] && Idles(w, c, w'.calls[c].pc)))
  }

  predicate Idles(w: World, c: CallId, pc: Pc) {
    && (pc.Preparing? || pc.Ready? || pc.Ran? || pc.Failing?)
    && (Held(pc).Some? ==> c in w.calls && Held(pc) == Held(w.calls[c].pc))
  }

  lemma IdleTraced(w: World, c: CallId, s: Step, w': World, d: CallId, e: ExecId)
    requires Idle(w, c, w')
    ensures Traced(w, c, s, w', d, e)
  {
  }

  lemma ReplayTraced(w: World, c: CallId, s: Step, w': World, d: CallId, e: ExecId)
    requires L.ValidLedger(w.ledger)
    requires s.Replay? && DoReplay(w, c, s, w')
    ensures Traced(w, c, s, w', d, e)
  {
    IdleTraced(w, c, s, w', d, e);
  }

  lemma ResumeTraced(w: World, c: CallId, s: Step, w': World, d: CallId, e: ExecId)
    requires L.ValidLedger(w.ledger)
    requires s.Resume? && DoResume(w, c, s, w')
    ensures Traced(w, c, s, w', d, e)
  {
    IdleTraced(w, c, s, w', d, e);
  }

  lemma CreationTraced(w: World, c: CallId, s: Step, w': World, d: CallId, e: ExecId)
    requires L.ValidLedger(w.ledger)
    requires s.Create? && DoCreate(w, c, s, w')
    ensures Traced(w, c, s, w', d, e)
  {
    IdleTraced(w, c, s, w', d, e);
  }

  lemma CheckpointTraced(w: World, c: CallId, s: Step, w': World, d: CallId, e: ExecId)
    requires L.ValidLedger(w.ledger)
    requires (s.Checkpoint? && DoCheckpoint(w, c, s, w')) || (s.Prepare? && DoPrepare(w, c, s, w'))
    ensures Traced(w, c, s, w', d, e)
  {
    IdleTraced(w, c, s, w', d, e);
  }

  lemma AdmissionTraced(w: World, c: CallId, s: Step, w': World, d: CallId, e: ExecId)
    requires L.ValidLedger(w.ledger)
    requires s.Admit? && DoAdmit(w, c, s, w')
    ensures Traced(w, c, s, w', d, e)
  {
  }

  lemma SwapTraced(w: World, c: CallId, s: Step, w': World, d: CallId, e: ExecId)
    requires L.ValidLedger(w.ledger)
    requires (s.Observe? && DoObserve(w, c, w')) || (s.Compare? && DoCompare(w, c, s, w'))
    ensures Traced(w, c, s, w', d, e)
  {
  }

  lemma RecordTraced(w: World, c: CallId, s: Step, w': World, d: CallId, e: ExecId)
    requires L.ValidLedger(w.ledger)
    requires s.Record? && DoRecord(w, c, s, w')
    ensures Traced(w, c, s, w', d, e)
  {
  }

  lemma TakingTraced(w: World, c: CallId, s: Step, w': World, d: CallId, e: ExecId)
    requires L.ValidLedger(w.ledger)
    requires (s.Enter? && DoEnter(w, c, s, w')) || (s.Consume? && DoConsume(w, c, s, w'))
             || (s.Check? && DoCheck(w, c, s, w')) || (s.Start? && DoStart(w, c, w'))
    ensures Traced(w, c, s, w', d, e)
  {
  }

  lemma FailureTraced(w: World, c: CallId, s: Step, w': World, d: CallId, e: ExecId)
    requires L.ValidLedger(w.ledger)
    requires (s.Fail? && DoFail(w, c, s, w')) || (s.SaveFailure? && DoSaveFailure(w, c, s, w'))
    ensures Traced(w, c, s, w', d, e)
  {
    IdleTraced(w, c, s, w', d, e);
  }

  lemma SettleTraced(w: World, c: CallId, s: Step, w': World, d: CallId, e: ExecId)
    requires L.ValidLedger(w.ledger)
    requires s.Settle? && DoSettle(w, c, s, w')
    ensures Traced(w, c, s, w', d, e)
  {
    IdleTraced(w, c, s, w', d, e);
  }

  lemma LossTraced(w: World, c: CallId, s: Step, w': World, d: CallId, e: ExecId)
    requires L.ValidLedger(w.ledger)
    requires (s.GiveUp? && DoGiveUp(w, c, w')) || (s.OtherWriter? && DoOtherWriter(w, s, w'))
             || (s.Crash? && DoCrash(w, s, w')) || (s.HostFailure? && DoHostFailure(w, s, w'))
    ensures Traced(w, c, s, w', d, e)
  {
  }

  /** Every step of the machine keeps executables as they were made, lets a call take up an executable by
      consuming it alone, sets out to execute after a check of its target alone, and starts the provider
      after recorded intent alone. */
  lemma StepTraced(w: World, c: CallId, s: Step, w': World, d: CallId, e: ExecId)
    requires L.ValidLedger(w.ledger) && Does(w, c, s, w')
    ensures Traced(w, c, s, w', d, e)
  {
    match s {
      case Enter(_, _) => TakingTraced(w, c, s, w', d, e);
      case Replay(_, _) => ReplayTraced(w, c, s, w', d, e);
      case Resume(_, _) => ResumeTraced(w, c, s, w', d, e);
      case Create(_, _, _, _, _) => CreationTraced(w, c, s, w', d, e);
      case Checkpoint(_, _, _, _) => CheckpointTraced(w, c, s, w', d, e);
      case Prepare(_, _, _) => CheckpointTraced(w, c, s, w', d, e);
      case Admit(_, _, _, _, _) => AdmissionTraced(w, c, s, w', d, e);
      case Observe => SwapTraced(w, c, s, w', d, e);
      case Compare(_, _) => SwapTraced(w, c, s, w', d, e);
      case Record(_, _, _) => RecordTraced(w, c, s, w', d, e);
      case Consume(_, _, _) => TakingTraced(w, c, s, w', d, e);
      case Check(_, _, _) => TakingTraced(w, c, s, w', d, e);
      case Start => TakingTraced(w, c, s, w', d, e);
      case Settle(_, _, _) => SettleTraced(w, c, s, w', d, e);
      case Fail(_) => FailureTraced(w, c, s, w', d, e);
      case SaveFailure(_, _) => FailureTraced(w, c, s, w', d, e);
      case GiveUp => LossTraced(w, c, s, w', d, e);
      case OtherWriter(_) => LossTraced(w, c, s, w', d, e);
      case Crash(_) => LossTraced(w, c, s, w', d, e);
      case HostFailure(_) => LossTraced(w, c, s, w', d, e);
    }
  }

  /** In every run, the last step does this to call `d` and executable `e`. */
  lemma LastStepTraced(worlds: seq<World>, d: CallId, e: ExecId) returns (c: CallId, s: Step)
    requires S.Run(worlds) && |worlds| > 1
    ensures S.Run(worlds[..|worlds| - 1]) && Inv(worlds[|worlds| - 2])
    ensures StepAt(worlds, |worlds| - 2, c, s)
    ensures Traced(worlds[|worlds| - 2], c, s, Last(worlds), d, e)
  {
    c, s := LastStep(worlds);
    StepTraced(worlds[|worlds| - 2], c, s, Last(worlds), d, e);
  }

  // ---------- executables ----------

  /** The step that makes an executable is an admission whose snapshot showed its own target open. */
  lemma AdmissionWasReviewed(w: World, c: CallId, s: Step, w': World, e: ExecId)
    requires Inv(w) && Does(w, c, s, w') && e !in w.execs && e in w'.execs
    ensures s.Admit? && s.outcome.Committed?
    ensures s.snapshot.target == w'.execs[e].context.target && s.snapshot.open
  {
    S.ExecutableNeedsItsOwnAdmission(w, c, s, w', e);
    AdmitWasReviewed(w, c, s, w', e);
  }

  lemma AdmitWasReviewed(w: World, c: CallId, s: Step, w': World, e: ExecId)
    requires Inv(w) && s.Admit? && DoAdmit(w, c, s, w') && e !in w.execs && e in w'.execs
    ensures s.outcome.Committed? && s.snapshot.target == w'.execs[e].context.target && s.snapshot.open
  {
    ReadyIsPrepared(w, c);
    L.AdmitEffect(w.ledger, w.calls[c].pc.context.operation, w.calls[c].pc.context.generation, s.snapshot, s.now);
  }

  lemma ReadyIsPrepared(w: World, c: CallId)
    requires Inv(w) && HasCall(w, c) && w.calls[c].pc.Ready?
    ensures L.ValidLedger(w.ledger) && ReceiptOk(w.ledger, w.calls[c].pc.context, true)
  {
    assert CallOk(w, c);
  }

  datatype Grant = Grant(call: CallId, step: Step, exec: ExecId, target: L.Target)

  /** The executables that step `i` may have made by an admission, committed, over a snapshot that showed
      their target as the current plan and open. */
  ghost function GrantsAt(worlds: seq<World>, i: nat): iset<Grant> {
    iset t: Grant |
      && StepAt(worlds, i, t.call, t.step) && t.step.Admit? && t.step.outcome.Committed?
      && t.exec !in worlds[i].execs && t.exec in worlds[i + 1].execs
      && t.step.snapshot.target == t.target && t.step.snapshot.open
  }

  lemma GrantStays(worlds: seq<World>, i: nat, t: Grant)
    requires |worlds| > 1 && t in GrantsAt(worlds[..|worlds| - 1], i)
    ensures t in GrantsAt(worlds, i)
  {
    StepStays(worlds, i, t.call, t.step);
  }

  lemma LastStepAdmitted(worlds: seq<World>, e: ExecId) returns (t: Grant)
    requires S.Run(worlds) && |worlds| > 1 && e !in worlds[|worlds| - 2].execs && e in Last(worlds).execs
    ensures t in GrantsAt(worlds, |worlds| - 2) && t.exec == e && t.target == Last(worlds).execs[e].context.target
  {
    var c, s := LastStep(worlds);
    AdmissionWasReviewed(worlds[|worlds| - 2], c, s, Last(worlds), e);
    t := Grant(c, s, e, s.snapshot.target);
  }

  lemma LastStepRemains(worlds: seq<World>, e: ExecId)
    requires S.Run(worlds) && |worlds| > 1
    ensures S.Run(worlds[..|worlds| - 1]) && Remains(worlds[|worlds| - 2], Last(worlds), e)
  {
    var c, s := LastStepTraced(worlds, 0, e);
  }

  /** In every run, each executable was made by an earlier admission, committed, over a snapshot that
      showed the reviewed target as the current plan and open. */
  lemma {:induction false} ExecutableWasReviewed(worlds: seq<World>, e: ExecId) returns (i: nat, t: Grant)
    requires S.Run(worlds) && e in Last(worlds).execs
    ensures t in GrantsAt(worlds, i) && t.exec == e && t.target == Last(worlds).execs[e].context.target
    decreases |worlds|
  {
    assert |worlds| > 1;
    if e in worlds[|worlds| - 2].execs {
      LastStepRemains(worlds, e);
      i, t := ExecutableWasReviewed(worlds[..|worlds| - 1], e);
      GrantStays(worlds, i, t);
    } else {
      i := |worlds| - 2;
      t := LastStepAdmitted(worlds, e);
    }
  }

  // ---------- receipts ----------

  predicate InLedger(l: L.Ledger, id: string, params: L.Params, approved: bool) {
    id in l.operations && l.operations[id].params == params && (approved <==> l.operations[id].stage != L.Rejected)
  }

  datatype Entry = Entry(id: string, params: L.Params, approved: bool)

  /** The receipts in the ledger, and those a host failure would bring back. */
  ghost function Entries(w: World): iset<Entry> {
    iset x: Entry | InLedger(w.ledger, x.id, x.params, x.approved) || InLedger(w.durable, x.id, x.params, x.approved)
  }

  ghost predicate Recorded(w: World, id: string, params: L.Params, approved: bool) {
    Entry(id, params, approved) in Entries(w)
  }

  /** Nothing but a creation adds a receipt: what a later ledger holds, the earlier one held. */
  ghost predicate Older(l: L.Ledger, next: L.Ledger) {
    forall id, params, approved :: InLedger(next, id, params, approved) ==> InLedger(l, id, params, approved)
  }

  lemma CheckpointIsOlder(l: L.Ledger, operation: string, generation: J.Stamp, phase: J.Phase, recovery: L.Recovery, now: J.Stamp)
    requires L.ValidLedger(l) && L.Checkpoint(l, operation, generation, phase, recovery, now).Ok?
    ensures Older(l, L.Checkpoint(l, operation, generation, phase, recovery, now).value.ledger)
  {
  }

  lemma BindIsOlder(l: L.Ledger, rq: L.Request, operation: string, now: J.Stamp)
    requires L.ValidLedger(l) && L.Bind(l, rq, operation, now).Ok?
    ensures Older(l, L.Bind(l, rq, operation, now).value.ledger)
  {
    L.BindExtends(l, rq, operation, now);
  }

  lemma AdmitIsOlder(l: L.Ledger, operation: string, generation: J.Stamp, s: L.Snapshot, now: J.Stamp)
    requires L.ValidLedger(l) && L.Admit(l, operation, generation, s, now).Ok?
    ensures Older(l, L.Admit(l, operation, generation, s, now).value.ledger)
  {
  }

  lemma PublishedIsOlder(w: World, next: L.Ledger, outcome: Outcome, id: string, params: L.Params, approved: bool)
    requires Older(w.ledger, next) && Recorded(Publish(w, next, outcome), id, params, approved)
    ensures Recorded(w, id, params, approved)
  {
  }

  lemma FileStepIsOlder(w: World, c: CallId, s: Step, w': World, id: string, params: L.Params, approved: bool)
    requires L.ValidLedger(w.ledger) && Does(w, c, s, w') && Recorded(w', id, params, approved)
    requires s.Observe? || s.Compare? || s.Fail? || s.SaveFailure? || s.OtherWriter? || s.HostFailure?
    ensures Recorded(w, id, params, approved)
  {
  }

  lemma CallStepIsOlder(w: World, c: CallId, s: Step, w': World, id: string, params: L.Params, approved: bool)
    requires L.ValidLedger(w.ledger) && Does(w, c, s, w') && Recorded(w', id, params, approved)
    requires s.Enter? || s.Consume? || s.Check? || s.Start? || s.GiveUp? || s.Crash?
    ensures Recorded(w, id, params, approved)
  {
  }

  lemma LedgerStepIsOlder(w: World, c: CallId, s: Step, w': World, id: string, params: L.Params, approved: bool)
    requires L.ValidLedger(w.ledger) && Does(w, c, s, w') && Recorded(w', id, params, approved)
    requires s.Replay? || s.Resume? || s.Checkpoint? || s.Prepare? || s.Record? || s.Settle? || s.Admit?
    ensures Recorded(w, id, params, approved)
  {
    match s {
      case Replay(_, _) => ReplayIsOlder(w, c, s, w', id, params, approved);
      case Resume(_, _) => ResumeIsOlder(w, c, s, w', id, params, approved);
      case Checkpoint(_, _, _, _) => CheckpointedIsOlder(w, c, s, w', id, params, approved);
      case Prepare(_, _, _) => PreparedIsOlder(w, c, s, w', id, params, approved);
      case Record(_, _, _) => RecordIsOlder(w, c, s, w', id, params, approved);
      case Settle(_, _, _) => SettleIsOlder(w, c, s, w', id, params, approved);
      case Admit(_, _, _, _, _) => AdmissionIsOlder(w, c, s, w', id, params, approved);
      case _ =>
    }
  }

  /** No step but a creation adds a receipt. */
  lemma OnlyCreationsAdd(w: World, c: CallId, s: Step, w': World, id: string, params: L.Params, approved: bool)
    requires L.ValidLedger(w.ledger) && Does(w, c, s, w') && Recorded(w', id, params, approved) && !s.Create?
    ensures Recorded(w, id, params, approved)
  {
    if s.Observe? || s.Compare? || s.Fail? || s.SaveFailure? || s.OtherWriter? || s.HostFailure? {
      FileStepIsOlder(w, c, s, w', id, params, approved);
    } else if s.Enter? || s.Consume? || s.Check? || s.Start? || s.GiveUp? || s.Crash? {
      CallStepIsOlder(w, c, s, w', id, params, approved);
    } else {
      LedgerStepIsOlder(w, c, s, w', id, params, approved);
    }
  }

  /** A receipt the ledgers did not hold before comes from a creation of just this request over a snapshot
      that showed its target open; unless it is a rejection, the coverage did not block it. */
  lemma NewReceiptWasReviewed(w: World, c: CallId, s: Step, w': World, id: string, params: L.Params, approved: bool)
    requires Inv(w) && Does(w, c, s, w') && !Recorded(w, id, params, approved) && Recorded(w', id, params, approved)
    ensures s.Create? && s.snapshot.target == params.target && s.snapshot.open && (approved <==> s.rejection == "")
    ensures c in w.calls && w.calls[c].pc == Entered(L.Request(id, params))
    ensures approved && s.snapshot.coverageBlocked ==> params.overrideCoverage
  {
    if s.Create? {
      CreateWasReviewed(w, c, s, w', id, params, approved);
    } else {
      OnlyCreationsAdd(w, c, s, w', id, params, approved);
      assert false;
    }
  }

  lemma CreateWasReviewed(w: World, c: CallId, s: Step, w': World, id: string, params: L.Params, approved: bool)
    requires L.ValidLedger(w.ledger) && s.Create? && DoCreate(w, c, s, w')
    requires !Recorded(w, id, params, approved) && Recorded(w', id, params, approved)
    ensures s.snapshot.target == params.target && s.snapshot.open && (approved <==> s.rejection == "")
    ensures w.calls[c].pc == Entered(L.Request(id, params))
    ensures approved && s.snapshot.coverageBlocked ==> params.overrideCoverage
  {
    CreationIsReviewed(w.ledger, w.calls[c].pc.request, s, id, params, approved);
  }

  lemma CreationIsReviewed(l: L.Ledger, rq: L.Request, s: Step, id: string, params: L.Params, approved: bool)
    requires L.ValidLedger(l) && s.Create? && s.now != 0 && L.Find(l, rq).NotFound?
    requires L.Create(l, rq, s.recovery, s.rejection, s.snapshot, s.now).Ok? && !InLedger(l, id, params, approved)
    requires InLedger(L.Create(l, rq, s.recovery, s.rejection, s.snapshot, s.now).value.ledger, id, params, approved)
    ensures rq == L.Request(id, params) && s.snapshot.target == params.target && s.snapshot.open
    ensures approved <==> s.rejection == ""
    ensures approved && s.snapshot.coverageBlocked ==> params.overrideCoverage
  {
    L.CreateEffect(l, rq, s.recovery, s.rejection, s.snapshot, s.now);
    L.CreateIff(l, rq, s.recovery, s.rejection, s.snapshot, s.now);
  }

  lemma ReplayIsOlder(w: World, c: CallId, s: Step, w': World, id: string, params: L.Params, approved: bool)
    requires L.ValidLedger(w.ledger) && s.Replay? && DoReplay(w, c, s, w') && Recorded(w', id, params, approved)
    ensures Recorded(w, id, params, approved)
  {
    var rq := w.calls[c].pc.request;
    var found := L.Find(w.ledger, rq);
    if L.Bind(w.ledger, rq, found.receipt.id, s.now).Ok? {
      BindIsOlder(w.ledger, rq, found.receipt.id, s.now);
    }
  }

  lemma ResumeIsOlder(w: World, c: CallId, s: Step, w': World, id: string, params: L.Params, approved: bool)
    requires L.ValidLedger(w.ledger) && s.Resume? && DoResume(w, c, s, w') && Recorded(w', id, params, approved)
    ensures Recorded(w, id, params, approved)
  {
    var rq := w.calls[c].pc.request;
    var found := L.Find(w.ledger, rq);
    if L.Bind(w.ledger, rq, found.receipt.id, s.now).Ok? {
      BindIsOlder(w.ledger, rq, found.receipt.id, s.now);
    }
  }

  lemma CheckpointedIsOlder(w: World, c: CallId, s: Step, w': World, id: string, params: L.Params, approved: bool)
    requires L.ValidLedger(w.ledger) && s.Checkpoint? && DoCheckpoint(w, c, s, w') && Recorded(w', id, params, approved)
    ensures Recorded(w, id, params, approved)
  {
    var op := w.calls[c].pc.operation;
    CheckpointIsOlder(w.ledger, op, L.Generation(w.ledger.operations[op]), s.phase, s.recovery, s.now);
  }

  lemma PreparedIsOlder(w: World, c: CallId, s: Step, w': World, id: string, params: L.Params, approved: bool)
    requires L.ValidLedger(w.ledger) && s.Prepare? && DoPrepare(w, c, s, w') && Recorded(w', id, params, approved)
    ensures Recorded(w, id, params, approved)
  {
    var op := w.calls[c].pc.operation;
    CheckpointIsOlder(w.ledger, op, L.Generation(w.ledger.operations[op]), J.Prepared, s.recovery, s.now);
  }

  lemma RecordIsOlder(w: World, c: CallId, s: Step, w': World, id: string, params: L.Params, approved: bool)
    requires L.ValidLedger(w.ledger) && s.Record? && DoRecord(w, c, s, w') && Recorded(w', id, params, approved)
    ensures Recorded(w, id, params, approved)
  {
    var pc := w.calls[c].pc;
    CheckpointIsOlder(w.ledger, pc.context.operation, pc.context.generation, JobPhase(pc.job),
                      L.Recovery(pc.context.generation, w.calls[c].runner, JobRecord(pc.job, pc.context, pc.committed)), s.now);
  }

  lemma SettleIsOlder(w: World, c: CallId, s: Step, w': World, id: string, params: L.Params, approved: bool)
    requires L.ValidLedger(w.ledger) && s.Settle? && DoSettle(w, c, s, w') && Recorded(w', id, params, approved)
    ensures Recorded(w, id, params, approved)
  {
    var context := w.execs[w.calls[c].pc.ran].context;
    CheckpointIsOlder(w.ledger, context.operation, context.generation, J.Settled,
                      L.Recovery(context.generation, w.calls[c].runner,
                                 J.Checkpointed(context.record.(lastError := s.cause), J.Settled, w.file)), s.now);
  }

  lemma AdmissionIsOlder(w: World, c: CallId, s: Step, w': World, id: string, params: L.Params, approved: bool)
    requires L.ValidLedger(w.ledger) && s.Admit? && DoAdmit(w, c, s, w') && Recorded(w', id, params, approved)
    ensures Recorded(w, id, params, approved)
  {
    var context := w.calls[c].pc.context;
    if L.Admit(w.ledger, context.operation, context.generation, s.snapshot, s.now).Ok? {
      AdmitIsOlder(w.ledger, context.operation, context.generation, s.snapshot, s.now);
    }
  }

  /** In every run, each receipt was created by an earlier step, for its own request, over a snapshot that
      showed its target as the current plan and open; only a rejection may ignore a blocked coverage. */
  lemma {:induction false} ReceiptWasReviewed(worlds: seq<World>, id: string, params: L.Params, approved: bool)
    returns (i: nat, c: CallId, s: Step)
    requires S.Run(worlds) && Recorded(Last(worlds), id, params, approved)
    ensures StepAt(worlds, i, c, s) && s.Create? && (approved <==> s.rejection == "")
    ensures c in worlds[i].calls && worlds[i].calls[c].pc == Entered(L.Request(id, params))
    ensures s.snapshot.target == params.target && s.snapshot.open
    ensures approved && s.snapshot.coverageBlocked ==> params.overrideCoverage
    decreases |worlds|
  {
    assert |worlds| > 1;
    c, s := LastStep(worlds);
    var before := worlds[..|worlds| - 1];
    if Recorded(Last(before), id, params, approved) {
      i, c, s := ReceiptWasReviewed(before, id, params, approved);
      StepStays(worlds, i, c, s);
    } else {
      i := |worlds| - 2;
      NewReceiptWasReviewed(Last(before), c, s, Last(worlds), id, params, approved);
    }
  }

  // ---------- starts ----------

  datatype Intent = Intent(call: CallId, step: Step, exec: ExecId)

  /** The execution intents that step `i` may have recorded and committed. */
  ghost function IntentsAt(worlds: seq<World>, i: nat): iset<Intent> {
    iset t: Intent |
      && StepAt(worlds, i, t.call, t.step) && t.step.Record? && t.step.outcome.Committed?
      && t.call in worlds[i].calls && worlds[i].calls[t.call].pc.Swapped?
      && worlds[i].calls[t.call].pc.job.Execute? && worlds[i].calls[t.call].pc.exec == J.Some(t.exec)
  }

  /** Step `i` recorded and committed the execution intent of call `c` for `e`. */
  ghost predicate IntendedAt(worlds: seq<World>, i: nat, c: CallId, s: Step, e: ExecId) {
    Intent(c, s, e) in IntentsAt(worlds, i)
  }

  lemma IntentStays(worlds: seq<World>, i: nat, c: CallId, s: Step, e: ExecId)
    requires |worlds| > 1 && IntendedAt(worlds[..|worlds| - 1], i, c, s, e)
    ensures IntendedAt(worlds, i, c, s, e)
  {
    StepStays(worlds, i, c, s);
  }

  lemma LastStepIntends(worlds: seq<World>, d: CallId, e: ExecId) returns (s: Step)
    requires S.Run(worlds) && |worlds| > 1 && StartingOf(Last(worlds), d, e)
    ensures S.Run(worlds[..|worlds| - 1])
    ensures StartingOf(worlds[|worlds| - 2], d, e) || IntendedAt(worlds, |worlds| - 2, d, s, e)
  {
    var c;
    c, s := LastStepTraced(worlds, d, e);
  }

  lemma {:induction false} StartingWasRecorded(worlds: seq<World>, d: CallId, e: ExecId) returns (i: nat, s: Step)
    requires S.Run(worlds) && StartingOf(Last(worlds), d, e)
    ensures IntendedAt(worlds, i, d, s, e)
    decreases |worlds|
  {
    assert |worlds| > 1;
    s := LastStepIntends(worlds, d, e);
    if StartingOf(worlds[|worlds| - 2], d, e) {
      i, s := StartingWasRecorded(worlds[..|worlds| - 1], d, e);
      IntentStays(worlds, i, d, s, e);
    } else {
      i := |worlds| - 2;
    }
  }

  lemma LastStart(worlds: seq<World>) returns (c: CallId)
    requires S.Run(worlds) && |worlds| > 1
    ensures S.Run(worlds[..|worlds| - 1])
    ensures
      var w := worlds[|worlds| - 2];
      Last(worlds).starts == w.starts ||
      (c in w.calls && w.calls[c].pc.Starting? && Last(worlds).starts == w.starts + [w.calls[c].pc.starting])
  {
    var s;
    c, s := LastStepTraced(worlds, 0, 0);
  }

  /** In every run, before each start the same call recorded and committed its execution intent for the
      executable it starts, after every earlier start. */
  lemma {:induction false} StartWasRecorded(worlds: seq<World>, k: nat) returns (i: nat, j: nat, c: CallId, s: Step)
    requires S.Run(worlds) && k < |Last(worlds).starts|
    ensures i < j < |worlds| && IntendedAt(worlds, i, c, s, Last(worlds).starts[k])
    ensures StartingOf(worlds[j], c, Last(worlds).starts[k]) && worlds[j].starts == Last(worlds).starts[..k]
    decreases |worlds|
  {
    assert |worlds| > 1;
    c := LastStart(worlds);
    var before := worlds[..|worlds| - 1];
    if k < |Last(before).starts| {
      assert Last(worlds).starts[..k] == Last(before).starts[..k];
      i, j, c, s := StartWasRecorded(before, k);
      IntentStays(worlds, i, c, s, Last(worlds).starts[k]);
    } else {
      j := |worlds| - 2;
      i, s := StartingWasRecorded(before, c, Last(before).calls[c].pc.starting);
      IntentStays(worlds, i, c, s, Last(worlds).starts[k]);
    }
  }

  /** In every run, whatever was started had been admitted over a snapshot that showed its target open. */
  lemma StartWasReviewed(worlds: seq<World>, k: nat) returns (i: nat, t: Grant)
    requires S.Run(worlds) && k < |Last(worlds).starts|
    ensures Last(worlds).starts[k] in Last(worlds).execs
    ensures t in GrantsAt(worlds, i) && t.exec == Last(worlds).starts[k]
    ensures t.target == Last(worlds).execs[Last(worlds).starts[k]].context.target
  {
    S.StartedIsDurablyAdmitted(worlds, k);
    i, t := ExecutableWasReviewed(worlds, Last(worlds).starts[k]);
  }

  datatype Look = Look(call: CallId, step: Step, exec: ExecId, target: L.Target)

  /** The checks step `i` may have made, by a call that held the executable, over a snapshot that showed
      the target as the current plan, open and approved. */
  ghost function ChecksAt(worlds: seq<World>, i: nat): iset<Look> {
    iset t: Look |
      && StepAt(worlds, i, t.call, t.step) && t.step.Check? && t.step.approved
      && t.step.snapshot.target == t.target && t.step.snapshot.open
      && Holds(worlds[i], t.call, t.exec)
  }

  lemma CheckStays(worlds: seq<World>, i: nat, t: Look)
    requires |worlds| > 1 && t in ChecksAt(worlds[..|worlds| - 1], i)
    ensures t in ChecksAt(worlds, i)
  {
    StepStays(worlds, i, t.call, t.step);
  }

  lemma LookMade(worlds: seq<World>, i: nat, c: CallId, s: Step, d: CallId, e: ExecId)
    requires StepAt(worlds, i, c, s)
    requires Remains(worlds[i], worlds[i + 1], e) && ChecksFirst(worlds[i], c, s, worlds[i + 1], d, e)
    requires !ExecutingOf(worlds[i], d, e) && ExecutingOf(worlds[i + 1], d, e)
    ensures s.Check? && c == d && e in worlds[i + 1].execs
    ensures Look(d, s, e, worlds[i + 1].execs[e].context.target) in ChecksAt(worlds, i)
  {
  }

  lemma LastStepLooks(worlds: seq<World>, d: CallId, e: ExecId) returns (c: CallId, s: Step)
    requires S.Run(worlds) && |worlds| > 1
    ensures S.Run(worlds[..|worlds| - 1]) && StepAt(worlds, |worlds| - 2, c, s)
    ensures Remains(worlds[|worlds| - 2], Last(worlds), e) && ChecksFirst(worlds[|worlds| - 2], c, s, Last(worlds), d, e)
  {
    c, s := LastStepTraced(worlds, d, e);
  }

  lemma LastStepChecks(worlds: seq<World>, d: CallId, e: ExecId) returns (t: Look)
    requires S.Run(worlds) && |worlds| > 1 && ExecutingOf(Last(worlds), d, e) && e in Last(worlds).execs
    ensures S.Run(worlds[..|worlds| - 1])
    ensures ExecutingOf(worlds[|worlds| - 2], d, e) ||
            (t in ChecksAt(worlds, |worlds| - 2) && t.call == d && t.exec == e && t.target == Last(worlds).execs[e].context.target)
  {
    var c, s := LastStepLooks(worlds, d, e);
    t := Look(d, s, e, Last(worlds).execs[e].context.target);
    if !ExecutingOf(worlds[|worlds| - 2], d, e) {
      LookMade(worlds, |worlds| - 2, c, s, d, e);
    }
  }

  lemma ExecutingIsMade(worlds: seq<World>, d: CallId, e: ExecId)
    requires S.Run(worlds) && ExecutingOf(Last(worlds), d, e)
    ensures e in Last(worlds).execs
  {
    S.RunKeeps(worlds);
    assert HasCall(Last(worlds), d) && CallOk(Last(worlds), d);
  }

  lemma {:induction false} ExecutingWasChecked(worlds: seq<World>, d: CallId, e: ExecId) returns (i: nat, t: Look)
    requires S.Run(worlds) && ExecutingOf(Last(worlds), d, e) && e in Last(worlds).execs
    ensures t in ChecksAt(worlds, i) && t.call == d && t.exec == e && t.target == Last(worlds).execs[e].context.target
    decreases |worlds|
  {
    assert |worlds| > 1;
    t := LastStepChecks(worlds, d, e);
    if ExecutingOf(worlds[|worlds| - 2], d, e) {
      LastStepRemains(worlds, e);
      ExecutingIsMade(worlds[..|worlds| - 1], d, e);
      i, t := ExecutingWasChecked(worlds[..|worlds| - 1], d, e);
      CheckStays(worlds, i, t);
    } else {
      i := |worlds| - 2;
    }
  }

  /** In every run, before each start the same call looked once more, while it held the executable, and
      found its target current, open and approved. */
  lemma {:induction false} StartWasChecked(worlds: seq<World>, k: nat) returns (i: nat, t: Look)
    requires S.Run(worlds) && k < |Last(worlds).starts|
    ensures Last(worlds).starts[k] in Last(worlds).execs
    ensures t in ChecksAt(worlds, i) && t.exec == Last(worlds).starts[k]
    ensures t.target == Last(worlds).execs[t.exec].context.target
    decreases |worlds|
  {
    assert |worlds| > 1;
    S.StartedIsDurablyAdmitted(worlds, k);
    var c := LastStart(worlds);
    var before := worlds[..|worlds| - 1];
    var e := Last(worlds).starts[k];
    LastStepRemains(worlds, e);
    if k < |Last(before).starts| {
      i, t := StartWasChecked(before, k);
    } else {
      ExecutingIsMade(before, c, e);
      i, t := ExecutingWasChecked(before, c, e);
    }
    CheckStays(worlds, i, t);
  }
}
