/**
  The steps after admission keep the invariant: the compare-and-swap jobs and their records, the
  single use of an executable, the start, the settlement, other writers and crashes
  (internal/runtime/approval.go:39-219, 337-435).
*/
module ApprovalExecution {
  import opened ApprovalProtocol
  import J = ApprovalJournal
  import L = ApprovalLedger
  import opened ApprovalAdmission

  lemma ObserveKeeps(w: World, c: CallId, w': World)
    requires Inv(w) && DoObserve(w, c, w')
    ensures Inv(w')
    ensures w'.execs.Keys == w.execs.Keys
  {
    assert HasCall(w, c) && CallOk(w, c);
    NothingPublished(w);
    if J.SamePreparedRun(w.calls[c].pc.context.state, w.file) {
      GotoKeeps(w, w, w', c, w'.calls[c].pc);
    } else {
      ReturnKeeps(w, w, w', c);
    }
  }

  /** Every job's record over what its swap commits passes the recovery check. */
  lemma JobAccepted(job: Job, context: Context, replaced: J.State, now: J.Stamp, steer: J.Option<nat>)
    requires ContextOk(context) && HasMessage(job) && now != 0
    requires J.SamePreparedRun(context.state, replaced) && J.ValidState(replaced)
    ensures
      var swapped := J.SwapState(replaced, replaced, Next(job, context, replaced), now, steer);
      swapped.Saved? && J.ValidState(swapped.committed)
      && J.ValidJournal(context.generation, JobRecord(job, context, swapped.committed))
    ensures J.OwnUnadvancedClaim(context.record, replaced)
  {
    J.WaitingClaimIsOwn(context.generation, context.record, replaced);
    J.SwapCommits(replaced, Next(job, context, replaced), now, steer);
    match job {
      case FailAdmission(cause, uncertain) =>
        J.AdmissionFailureAccepted(context.generation, context.record, replaced, cause, uncertain, now, steer);
      case Execute => J.ExecuteAccepted(context.generation, context.record, replaced, now, steer);
      case RequireReview(cause) => J.ReviewAccepted(context.generation, context.record, replaced, cause, now, steer);
      case Abort => J.AbortAccepted(context.generation, context.record, replaced, now, steer);
    }
  }

  lemma CompareKeeps(w: World, c: CallId, s: Step, w': World)
    requires Inv(w) && s.Compare? && DoCompare(w, c, s, w')
    ensures Inv(w')
    ensures w'.execs.Keys == w.execs.Keys
  {
    assert HasCall(w, c) && CallOk(w, c);
    var pc := w.calls[c].pc;
    NothingPublished(w);
    match J.SwapState(w.file, pc.observed.value, Next(pc.job, pc.context, pc.observed.value), s.now, s.steer) {
      case Saved(committed) => SavedKeeps(w, c, s, committed, w');
      case NotSaved => GotoKeeps(w, w, w', c, w'.calls[c].pc);
      case Refused => ReturnKeeps(w, w, w', c);
    }
  }

  lemma SavedKeeps(w: World, c: CallId, s: Step, committed: J.State, w': World)
    requires Inv(w) && HasCall(w, c) && w.lock == J.Some(c) && w.calls[c].pc.Swapping? && w.calls[c].pc.observed == J.Some(w.file)
    requires s.Compare? && s.now != 0
    requires
      var pc := w.calls[c].pc;
      && J.SwapState(w.file, w.file, Next(pc.job, pc.context, w.file), s.now, s.steer) == J.Saved(committed)
      && w' == Goto(w.(file := committed, history := w.history + [ClaimSwap(pc.context.record, w.file, committed)]), c,
                    Swapped(pc.job, pc.exec, pc.context, committed))
    ensures Inv(w')
  {
    var pc := w.calls[c].pc;
    assert CallOk(w, c);
    JobAccepted(pc.job, pc.context, w.file, s.now, s.steer);
    SwapKeeps(w, c, ClaimSwap(pc.context.record, w.file, committed), w');
  }

  lemma SwapKeeps(w: World, c: CallId, event: Event, w': World)
    requires Inv(w) && HasCall(w, c) && w.lock == J.Some(c) && w.calls[c].pc.Swapping?
    requires event.ClaimSwap? && EventOk(event) && J.ValidState(event.committed)
    requires
      var pc := w.calls[c].pc;
      && w' == Goto(w.(file := event.committed, history := w.history + [event]), c, Swapped(pc.job, pc.exec, pc.context, event.committed))
      && J.ValidJournal(pc.context.generation, JobRecord(pc.job, pc.context, event.committed))
    ensures Inv(w')
  {
    assert CallOk(w, c);
    SameLedgers(w, w');
    Frame(w, w', c);
  }

  /** Noting what a writer did keeps the invariant when the note is one the history may hold. */
  lemma NoteKeeps(w: World, e: Event)
    requires Inv(w) && EventOk(e)
    ensures Inv(Note(w, e))
  {
    var noted := Note(w, e);
    SameLedgers(w, noted);
    CrashTickets(w, noted);
    forall d | HasCall(noted, d)
      ensures CallOk(noted, d)
    {
      assert HasCall(w, d) && CallOk(w, d);
    }
  }

  /** Writing an accepted record, whatever survives of it, keeps ledgers and executables. */
  lemma AcceptedWriteKeeps(w: World, op: string, generation: J.Stamp, phase: J.Phase, recovery: L.Recovery, now: J.Stamp, outcome: Outcome)
    requires Inv(w) && L.Checkpoint(w.ledger, op, generation, phase, recovery, now).Ok? && recovery.Recovery?
    requires recovery.record.phase == phase && J.ValidJournal(recovery.generation, recovery.record)
    ensures
      var noted := Note(w, RecordWrite(recovery.generation, recovery.record));
      var next := L.Checkpoint(w.ledger, op, generation, phase, recovery, now).value.ledger;
      var published := Publish(noted, next, outcome);
      Inv(noted) && published in Publications(noted)
  {
    var noted := Note(w, RecordWrite(recovery.generation, recovery.record));
    NoteKeeps(w, RecordWrite(recovery.generation, recovery.record));
    WrittenKeeps(noted, op, generation, phase, recovery, now, outcome);
  }

  lemma RecordKeeps(w: World, c: CallId, s: Step, w': World)
    requires Inv(w) && s.Record? && DoRecord(w, c, s, w')
    ensures Inv(w')
    ensures w'.execs.Keys == w.execs.Keys
  {
    assert HasCall(w, c) && CallOk(w, c);
    var pc := w.calls[c].pc;
    var recovery := L.Recovery(pc.context.generation, w.calls[c].runner, JobRecord(pc.job, pc.context, pc.committed));
    AcceptedWriteKeeps(w, pc.context.operation, pc.context.generation, JobPhase(pc.job), recovery, s.now, s.outcome);
    var next := L.Checkpoint(w.ledger, pc.context.operation, pc.context.generation, JobPhase(pc.job), recovery, s.now).value.ledger;
    var noted := Note(w, RecordWrite(recovery.generation, recovery.record));
    RecordedKeeps(noted, c, s.outcome, s.cause, Publish(noted, next, s.outcome), w');
  }

  lemma RecordedKeeps(w: World, c: CallId, outcome: Outcome, cause: string, published: World, w': World)
    requires Inv(w) && HasCall(w, c) && w.lock == J.Some(c) && w.calls[c].pc.Swapped?
    requires published in Publications(w)
    requires !outcome.Committed? ==> cause != ""
    requires w' == AfterRecord(published, c, outcome, cause)
    ensures Inv(w')
  {
    var pc := w.calls[c].pc;
    if pc.job.Execute? && pc.exec.Some? {
      IntentKeeps(w, c, published, outcome, cause, w');
    } else {
      ReturnKeeps(w, published, w', c);
    }
  }

  lemma IntentKeeps(w: World, c: CallId, published: World, outcome: Outcome, cause: string, w': World)
    requires Inv(w) && HasCall(w, c) && w.lock == J.Some(c) && published in Publications(w)
    requires w.calls[c].pc.Swapped? && w.calls[c].pc.job.Execute? && w.calls[c].pc.exec.Some?
    requires !outcome.Committed? ==> cause != ""
    requires w' == Goto(published.(lock := J.None), c, Intended(w.calls[c].pc, outcome, cause))
    ensures Inv(w')
  {
    assert CallOk(w, c);
    IntentIsOwn(w.calls[c].pc.context, w.calls[c].pc.committed);
    ReleaseKeeps(w, published, w', c, Intended(w.calls[c].pc, outcome, cause));
  }

  /** What the execution swap committed is still the operation's own unadvanced claim. */
  lemma IntentIsOwn(context: Context, committed: J.State)
    requires ContextOk(context) && J.ValidJournal(context.generation, JobRecord(Execute, context, committed))
    ensures J.OwnUnadvancedClaim(context.record, committed)
  {
  }

  /** Moving on without the lock: nobody else held it. */
  lemma ReleaseKeeps(w: World, published: World, w': World, c: CallId, pc: Pc)
    requires Inv(w) && HasCall(w, c) && w.lock == J.Some(c)
    requires published in Publications(w)
    requires w' == Goto(published.(lock := J.None), c, pc) && CallOk(Goto(published, c, pc), c)
    requires !Locked(pc) && Held(w.calls[c].pc) == Held(pc) && (HasRun(w.calls[c].pc) ==> HasRun(pc))
    ensures Inv(w')
  {
    var moved := Goto(published, c, pc);
    GotoKeeps(w, published, moved, c, pc);
    UnlockKeeps(moved, c, w');
  }

  lemma UnlockKeeps(w: World, c: CallId, w': World)
    requires Inv(w) && HasCall(w, c) && w.lock == J.Some(c) && !Locked(w.calls[c].pc)
    requires w' == w.(lock := J.None)
    ensures Inv(w')
  {
    SameLedgers(w, w');
    CrashTickets(w, w');
    forall d | HasCall(w', d)
      ensures CallOk(w', d)
    {
      assert HasCall(w, d) && CallOk(w, d);
    }
  }

  lemma ConsumeKeeps(w: World, c: CallId, s: Step, w': World)
    requires Inv(w) && s.Consume? && DoConsume(w, c, s, w')
    ensures Inv(w')
    ensures w'.execs.Keys == w.execs.Keys
  {
    var marked := w.(execs := w.execs[s.exec := w.execs[s.exec].(consumed := true)]);
    MarkKeeps(w, s.exec, marked);
    TakeKeeps(marked, c, Call(s.runner, Waiting(s.exec, s.abort)), w');
  }

  /** Nobody holds an executable that was not consumed, and nobody started it. */
  lemma Unheld(w: World, e: ExecId)
    requires Inv(w) && HasExec(w, e) && !w.execs[e].consumed
    ensures e !in w.starts && forall d :: !Holds(w, d, e)
  {
    forall d
      ensures !Holds(w, d, e)
    {
      assert Holds(w, d, e) ==> HasCall(w, d) && CallOk(w, d);
    }
    assert e in w.starts ==> Started(w, e);
  }

  lemma MarkKeeps(w: World, e: ExecId, marked: World)
    requires Inv(w) && HasExec(w, e) && !w.execs[e].consumed
    requires marked == w.(execs := w.execs[e := w.execs[e].(consumed := true)])
    ensures Inv(marked) && e !in marked.starts && forall d :: !Holds(marked, d, e)
  {
    Unheld(w, e);
    SameHolders(w, marked, e);
    MarkedKeeps(w, e, marked);
  }

  lemma MarkedKeeps(w: World, e: ExecId, marked: World)
    requires Inv(w) && HasExec(w, e)
    requires marked == w.(execs := w.execs[e := w.execs[e].(consumed := true)])
    ensures Inv(marked)
  {
    MarkedExecs(w, e, marked);
    MarkedTickets(w, e, marked);
    forall d | HasCall(marked, d)
      ensures CallOk(marked, d)
    {
      assert HasCall(w, d) && CallOk(w, d);
    }
  }

  lemma MarkedTickets(w: World, e: ExecId, marked: World)
    requires Inv(w) && HasExec(w, e)
    requires marked == w.(execs := w.execs[e := w.execs[e].(consumed := true)])
    ensures StartsOk(marked)
  {
    TicketsSame(w, marked);
  }

  lemma SameHolders(w: World, w': World, e: ExecId)
    requires w'.calls == w.calls && forall d :: !Holds(w, d, e)
    ensures forall d :: !Holds(w', d, e)
  {
    forall d
      ensures !Holds(w', d, e)
    {
      assert !Holds(w, d, e);
    }
  }

  lemma MarkedExecs(w: World, e: ExecId, marked: World)
    requires Inv(w) && HasExec(w, e)
    requires marked == w.(execs := w.execs[e := w.execs[e].(consumed := true)])
    ensures ExecsOk(marked) && Unique(marked)
  {
    forall c, d, x | Holds(marked, c, x) && Holds(marked, d, x)
      ensures c == d
    {
      assert Holds(w, c, x) && Holds(w, d, x);
    }
    forall f | HasExec(marked, f)
      ensures ExecOk(marked, f)
    {
      assert HasExec(w, f) && ExecOk(w, f);
    }
    forall f, g, op | Carries(marked, f, op) && Carries(marked, g, op)
      ensures f == g
    {
      assert Carries(w, f, op) && Carries(w, g, op);
    }
  }

  /** A new call takes up an executable nobody holds and nobody started. */
  lemma TakeKeeps(w: World, c: CallId, call: Call, w': World)
    requires Inv(w) && !HasCall(w, c) && call.pc.Waiting? && w' == w.(calls := w.calls[c := call])
    requires HasExec(w, call.pc.consumed) && w.execs[call.pc.consumed].consumed && call.pc.consumed !in w.starts
    requires forall d :: !Holds(w, d, call.pc.consumed)
    ensures Inv(w')
  {
    SameLedgers(w, w');
    TakeTickets(w, c, call, w');
    forall d | HasCall(w', d)
      ensures CallOk(w', d)
    {
      if d != c {
        assert HasCall(w, d) && CallOk(w, d);
      }
    }
  }

  lemma TakeTickets(w: World, c: CallId, call: Call, w': World)
    requires Inv(w) && !HasCall(w, c) && call.pc.Waiting? && w' == w.(calls := w.calls[c := call])
    requires call.pc.consumed !in w.starts && forall d :: !Holds(w, d, call.pc.consumed)
    ensures Unique(w') && StartsOk(w')
  {
    forall d, f, e | Holds(w', d, e) && Holds(w', f, e)
      ensures d == f
    {
      assert d != c ==> Holds(w, d, e);
      assert f != c ==> Holds(w, f, e);
    }
    forall e, f, op | Carries(w', e, op) && Carries(w', f, op)
      ensures e == f
    {
      assert Carries(w, e, op) && Carries(w, f, op);
    }
    forall e | e in w'.starts
      ensures Started(w', e)
    {
      assert Started(w, e) && HasExec(w', e);
      forall d | Holds(w', d, e)
        ensures HasRun(w'.calls[d].pc)
      {
        assert Holds(w, d, e);
      }
    }
  }

  lemma CheckKeeps(w: World, c: CallId, s: Step, w': World)
    requires Inv(w) && s.Check? && DoCheck(w, c, s, w')
    ensures Inv(w')
    ensures w'.execs.Keys == w.execs.Keys
  {
    assert HasCall(w, c) && CallOk(w, c);
    assert HasExec(w, w.calls[c].pc.consumed) && ExecOk(w, w.calls[c].pc.consumed);
    SameLedgers(w, w');
    Frame(w, w', c);
  }

  lemma StartKeeps(w: World, c: CallId, w': World)
    requires Inv(w) && DoStart(w, c, w')
    ensures Inv(w')
    ensures w'.execs.Keys == w.execs.Keys
  {
    assert HasCall(w, c) && CallOk(w, c);
    assert Holds(w, c, w.calls[c].pc.starting);
    SameLedgers(w, w');
    forall d | HasCall(w', d)
      ensures CallOk(w', d)
    {
      assert HasCall(w, d) && CallOk(w, d);
    }
    StartedOnce(w, c, w');
  }

  /** The executable a call starts was not started before, and from now on only its finished run holds it. */
  lemma StartedOnce(w: World, c: CallId, w': World)
    requires Inv(w) && DoStart(w, c, w')
    requires Holds(w, c, w.calls[c].pc.starting) && HasExec(w, w.calls[c].pc.starting) && w.execs[w.calls[c].pc.starting].consumed
    ensures Unique(w') && StartsOk(w')
  {
    var e := w.calls[c].pc.starting;
    assert e !in w.starts by {
      assert e in w.starts ==> Started(w, e);
    }
    forall d, f | Holds(w', d, f)
      ensures Holds(w, d, f)
    {
      assert d != c ==> w'.calls[d] == w.calls[d];
    }
    forall x, y, op | Carries(w', x, op) && Carries(w', y, op)
      ensures x == y
    {
      assert Carries(w, x, op) && Carries(w, y, op);
    }
    forall f | f in w'.starts
      ensures Started(w', f)
    {
      assert f in w.starts ==> Started(w, f);
      assert f in w.starts || f == e;
      forall d | Holds(w', d, f)
        ensures HasRun(w'.calls[d].pc)
      {
        assert Holds(w, d, f);
      }
    }
  }

  lemma SettleKeeps(w: World, c: CallId, s: Step, w': World)
    requires Inv(w) && s.Settle? && DoSettle(w, c, s, w')
    ensures Inv(w')
    ensures w'.execs.Keys == w.execs.Keys
  {
    assert HasCall(w, c) && CallOk(w, c);
    var e := w.calls[c].pc.ran;
    assert HasExec(w, e) && ExecOk(w, e);
    var context := w.execs[e].context;
    var record := J.Checkpointed(context.record.(lastError := s.cause), J.Settled, w.file);
    J.SettleAccepted(context.generation, context.record, s.cause, w.file);
    var recovery := L.Recovery(context.generation, w.calls[c].runner, record);
    AcceptedWriteKeeps(w, context.operation, context.generation, J.Settled, recovery, s.now, s.outcome);
    var next := L.Checkpoint(w.ledger, context.operation, context.generation, J.Settled, recovery, s.now).value.ledger;
    var noted := Note(w, RecordWrite(context.generation, record));
    ReturnKeeps(noted, Publish(noted, next, s.outcome), w', c);
  }

  /** The state a failing call has in hand is its operation's own unadvanced claim. */
  lemma InHandIsOwn(w: World, c: CallId)
    requires Inv(w) && HasCall(w, c) && InHand(w, w.calls[c].pc).Some?
    ensures Held(w.calls[c].pc).Some? && HasExec(w, Held(w.calls[c].pc).value)
    ensures J.OwnUnadvancedClaim(w.execs[Held(w.calls[c].pc).value].context.record, InHand(w, w.calls[c].pc).value)
  {
    assert CallOk(w, c);
    var e := Held(w.calls[c].pc).value;
    assert HasExec(w, e) && ExecOk(w, e);
    var context := w.execs[e].context;
    J.WaitingClaimIsOwn(context.generation, context.record, context.state);
    match w.calls[c].pc {
      case Swapped(_, _, _, committed) => IntentIsOwn(context, committed);
      case _ =>
    }
  }

  lemma FailKeeps(w: World, c: CallId, s: Step, w': World)
    requires Inv(w) && s.Fail? && DoFail(w, c, s, w')
    ensures Inv(w')
    ensures w'.execs.Keys == w.execs.Keys
  {
    assert HasCall(w, c) && CallOk(w, c);
    InHandIsOwn(w, c);
    FailingKeeps(w, c, w'.calls[c].pc, w');
  }

  lemma FailingKeeps(w: World, c: CallId, pc: Pc, w': World)
    requires Inv(w) && HasCall(w, c) && pc.Failing? && pc.cause != ""
    requires Held(w.calls[c].pc) == Held(pc) && (HasRun(w.calls[c].pc) ==> HasRun(pc))
    requires HasExec(w, pc.failing) && J.OwnUnadvancedClaim(w.execs[pc.failing].context.record, pc.state)
    requires w' == Goto(w.(lock := if w.lock == J.Some(c) then J.None else w.lock), c, pc)
    ensures Inv(w')
  {
    assert CallOk(w, c);
    if w.lock == J.Some(c) {
      NothingPublished(w);
      ReleaseKeeps(w, w, w', c, pc);
    } else {
      AloneKeeps(w, c, pc, w');
    }
  }

  /** A call moves on that does not hold the lock. */
  lemma AloneKeeps(w: World, c: CallId, pc: Pc, w': World)
    requires Inv(w) && HasCall(w, c) && Held(w.calls[c].pc) == Held(pc) && (HasRun(w.calls[c].pc) ==> HasRun(pc))
    requires w' == Goto(w, c, pc) && CallOk(w', c)
    ensures Inv(w')
  {
    SameLedgers(w, w');
    Frame(w, w', c);
  }

  lemma SaveFailureKeeps(w: World, c: CallId, s: Step, w': World)
    requires Inv(w) && s.SaveFailure? && DoSaveFailure(w, c, s, w')
    ensures Inv(w')
    ensures w'.execs.Keys == w.execs.Keys
  {
    assert HasCall(w, c) && CallOk(w, c);
    var pc := w.calls[c].pc;
    var record := w.execs[pc.failing].context.record;
    match J.SaveState(w.file, J.FailedClaim(pc.state, pc.cause), s.now, s.steer) {
      case Saved(saved) =>
        J.FailureReplaces(record, pc.state, w.file, pc.cause, s.now, s.steer);
        var written := w.(file := saved);
        OtherWriterKeeps(w, c, OtherWriter(saved), written);
        NoteKeeps(written, FailureSave(record, pc.state, w.file, saved));
        AfterFailureKeeps(Note(written, FailureSave(record, pc.state, w.file, saved)), c);
      case _ => AfterFailureKeeps(w, c);
    }
  }

  lemma AfterFailureKeeps(w: World, c: CallId)
    requires Inv(w) && HasCall(w, c) && w.calls[c].pc.Failing?
    ensures Inv(AfterFailure(w, c))
  {
    assert CallOk(w, c);
    var w' := AfterFailure(w, c);
    if w.calls[c].pc.afterRun {
      AloneKeeps(w, c, w'.calls[c].pc, w');
    } else {
      NothingPublished(w);
      ReturnKeeps(w, w, w', c);
    }
  }

  lemma CrashKeeps(w: World, s: Step, w': World)
    requires Inv(w) && ((s.Crash? && DoCrash(w, s, w')) || (s.HostFailure? && DoHostFailure(w, s, w')))
    ensures Inv(w')
    ensures w'.execs.Keys == w.execs.Keys
  {
    forall e | HasExec(w', e)
      ensures ExecOk(w', e)
    {
      assert HasExec(w, e) && ExecOk(w, e);
    }
    forall d | HasCall(w', d)
      ensures CallOk(w', d)
    {
      assert HasCall(w, d) && CallOk(w, d);
    }
    CrashTickets(w, w');
  }

  /** Losing calls loses no ticket's uniqueness. */
  lemma CrashTickets(w: World, w': World)
    requires Inv(w) && w'.execs == w.execs && w'.starts == w.starts
    requires forall d :: HasCall(w', d) ==> HasCall(w, d) && w'.calls[d] == w.calls[d]
    ensures Unique(w') && StartsOk(w')
  {
    assert OthersSame(w, w', 0);
    forall d, e | Holds(w', d, e)
      ensures Holds(w, d, e)
    {
      assert HasCall(w', d);
    }
    forall x, y, op | Carries(w', x, op) && Carries(w', y, op)
      ensures x == y
    {
      assert Carries(w, x, op) && Carries(w, y, op);
    }
    forall f | f in w'.starts
      ensures Started(w', f)
    {
      assert Started(w, f) && HasExec(w', f);
      forall d | Holds(w', d, f)
        ensures HasRun(w'.calls[d].pc)
      {
        assert Holds(w, d, f) && HasCall(w', d);
      }
    }
  }

  lemma GiveUpKeeps(w: World, c: CallId, w': World)
    requires Inv(w) && DoGiveUp(w, c, w')
    ensures Inv(w')
    ensures w'.execs.Keys == w.execs.Keys
  {
    NothingPublished(w);
    ReturnKeeps(w, w, w', c);
  }

  lemma OtherWriterKeeps(w: World, c: CallId, s: Step, w': World)
    requires Inv(w) && s.OtherWriter? && DoOtherWriter(w, s, w')
    ensures Inv(w')
    ensures w'.execs.Keys == w.execs.Keys
  {
    SameLedgers(w, w');
    forall d | HasCall(w', d)
      ensures CallOk(w', d)
    {
      assert HasCall(w, d) && CallOk(w, d);
    }
    CrashTickets(w, w');
  }
}
