/**
  What every run of the approval protocol keeps: the provider starts at most once for an operation
  and for a reviewed target, what was started is durably admitted, every record written after
  preparation is accepted, and a compare-and-swap only replaces its operation's own claim
  (internal/runtime/approval_receipts.go:319-398, 485-693, internal/runtime/approval.go:39-219, 386-435,
  internal/runtime/runner.go:2906-2915).
*/
module ApprovalSafety {
  import opened ApprovalProtocol
  import J = ApprovalJournal
  import L = ApprovalLedger
  import opened ApprovalAdmission
  import opened ApprovalExecution

  lemma StepKeeps(w: World, c: CallId, s: Step, w': World)
    requires Inv(w) && Does(w, c, s, w')
    ensures Inv(w')
    ensures !s.Admit? ==> w'.execs.Keys == w.execs.Keys
  {
    match s {
      case Enter(_, _) => EnterKeeps(w, c, s, w');
      case Replay(_, _) => ReplayKeeps(w, c, s, w');
      case Resume(_, _) => ResumeKeeps(w, c, s, w');
      case Create(_, _, _, _, _) => CreateKeeps(w, c, s, w');
      case Checkpoint(_, _, _, _) => CheckpointKeeps(w, c, s, w');
      case Prepare(_, _, _) => PrepareKeeps(w, c, s, w');
      case Admit(_, _, _, _, _) => AdmitKeeps(w, c, s, w');
      case Observe => ObserveKeeps(w, c, w');
      case Compare(_, _) => CompareKeeps(w, c, s, w');
      case Record(_, _, _) => RecordKeeps(w, c, s, w');
      case Consume(_, _, _) => ConsumeKeeps(w, c, s, w');
      case Check(_, _, _) => CheckKeeps(w, c, s, w');
      case Start => StartKeeps(w, c, w');
      case Settle(_, _, _) => SettleKeeps(w, c, s, w');
      case Fail(_) => FailKeeps(w, c, s, w');
      case SaveFailure(_, _) => SaveFailureKeeps(w, c, s, w');
      case GiveUp => GiveUpKeeps(w, c, w');
      case OtherWriter(_) => OtherWriterKeeps(w, c, s, w');
      case Crash(_) => CrashKeeps(w, s, w');
      case HostFailure(_) => CrashKeeps(w, s, w');
    }
  }

  // ---------- runs ----------

  ghost predicate Moves(w: World, w': World) {
    L.ValidLedger(w.ledger) && exists c, s :: Does(w, c, s, w')
  }

  ghost predicate Run(worlds: seq<World>) {
    && |worlds| > 0 && Initial(worlds[0])
    && forall i :: 0 <= i < |worlds| - 1 ==> Moves(worlds[i], worlds[i + 1])
  }

  lemma {:induction false} RunKeeps(worlds: seq<World>)
    requires Run(worlds)
    ensures Inv(worlds[|worlds| - 1])
    decreases |worlds|
  {
    if |worlds| == 1 {
    } else {
      var before := worlds[..|worlds| - 1];
      RunKeeps(before);
      assert Moves(worlds[|worlds| - 2], worlds[|worlds| - 1]);
      var c, s :| Does(worlds[|worlds| - 2], c, s, worlds[|worlds| - 1]);
      StepKeeps(worlds[|worlds| - 2], c, s, worlds[|worlds| - 1]);
    }
  }

  /** In every run, no operation and no reviewed target starts the provider twice. */
  lemma ProviderStartsAtMostOnce(worlds: seq<World>, i: nat, j: nat)
    requires Run(worlds)
    requires
      var w := worlds[|worlds| - 1];
      i < j < |w.starts|
    ensures
      var w := worlds[|worlds| - 1];
      && w.starts[i] in w.execs && w.starts[j] in w.execs
      && w.execs[w.starts[i]].context.operation != w.execs[w.starts[j]].context.operation
      && w.execs[w.starts[i]].context.target != w.execs[w.starts[j]].context.target
  {
    var w := worlds[|worlds| - 1];
    RunKeeps(worlds);
    var e, f := w.starts[i], w.starts[j];
    assert Started(w, e) && Started(w, f);
    assert ExecOk(w, e) && ExecOk(w, f);
    assert Carries(w, e, w.execs[e].context.operation);
    assert Carries(w, f, w.execs[f].context.operation);
    if w.execs[e].context.target == w.execs[f].context.target {
      L.OneAdmissionPerTarget(w.ledger, w.execs[e].context.operation, w.execs[f].context.operation);
    }
  }

  /** In every run, whatever was started had been admitted, and stays admitted even after a host failure. */
  lemma StartedIsDurablyAdmitted(worlds: seq<World>, i: nat)
    requires Run(worlds) && i < |worlds[|worlds| - 1].starts|
    ensures
      var w := worlds[|worlds| - 1];
      && w.starts[i] in w.execs
      && AdmittedAs(w.ledger, w.execs[w.starts[i]].context) && AdmittedAs(w.durable, w.execs[w.starts[i]].context)
  {
    RunKeeps(worlds);
    var w := worlds[|worlds| - 1];
    assert Started(w, w.starts[i]) && ExecOk(w, w.starts[i]);
  }

  /** In every run, each receipt in a phase from prepared on is accepted by the recovery check, and would
      still be after a host failure. */
  lemma ReceiptsStayReadable(worlds: seq<World>, id: string)
    requires Run(worlds)
    ensures
      var w := worlds[|worlds| - 1];
      && (id in w.ledger.operations ==> JournalOk(w.ledger.operations[id]))
      && (id in w.durable.operations ==> JournalOk(w.durable.operations[id]))
  {
    RunKeeps(worlds);
    var w := worlds[|worlds| - 1];
    assert L.Has(w.ledger, id) ==> JournalOk(w.ledger.operations[id]);
    assert L.Has(w.durable, id) ==> JournalOk(w.durable.operations[id]);
  }

  /** In every run, each state that a job's compare-and-swap replaced was its operation's own unadvanced claim. */
  lemma SwapsReplaceOwnClaims(worlds: seq<World>, i: nat)
    requires Run(worlds) && i < |worlds[|worlds| - 1].history| && worlds[|worlds| - 1].history[i].ClaimSwap?
    ensures
      var e := worlds[|worlds| - 1].history[i];
      J.OwnUnadvancedClaim(e.record, e.replaced)
  {
    RunKeeps(worlds);
    assert EventOk(worlds[|worlds| - 1].history[i]);
  }

  /** In every run, each state that a failure save replaced carried its operation's own generation; it was
      the unadvanced claim exactly when it still was the run the failure was built on. */
  lemma FailuresReplaceOwnGeneration(worlds: seq<World>, i: nat)
    requires Run(worlds) && i < |worlds[|worlds| - 1].history| && worlds[|worlds| - 1].history[i].FailureSave?
    ensures
      var e := worlds[|worlds| - 1].history[i];
      && e.replaced.runGeneration == e.record.claim
      && (J.OwnUnadvancedClaim(e.record, e.replaced) <==> J.SamePreparedRun(e.expected, e.replaced))
  {
    RunKeeps(worlds);
    assert EventOk(worlds[|worlds| - 1].history[i]);
  }

  /** In every run, each record written after preparation (prepare_failed or aborted by a failed admission,
      executing, review_required, aborted, settled) passes the recovery check, whatever became of its write. */
  lemma WrittenRecordsAreAccepted(worlds: seq<World>, i: nat)
    requires Run(worlds) && i < |worlds[|worlds| - 1].history| && worlds[|worlds| - 1].history[i].RecordWrite?
    ensures
      var e := worlds[|worlds| - 1].history[i];
      J.ValidJournal(e.generation, e.record)
  {
    RunKeeps(worlds);
    assert EventOk(worlds[|worlds| - 1].history[i]);
  }

  /** The history holds them all: what such a step publishes is the record it noted. */
  lemma PublishedIsNoted(w: World, c: CallId, s: Step, w': World)
    requires Inv(w) && Does(w, c, s, w')
    requires (s.Record? && s.outcome != NotPublished) || (s.Settle? && s.outcome != NotPublished)
    ensures |w'.history| == |w.history| + 1 && w'.history[|w.history|].RecordWrite?
    ensures
      var e := w'.history[|w.history|];
      exists op :: op in w'.ledger.operations && w'.ledger.operations[op].recovery.Recovery? &&
        w'.ledger.operations[op].recovery.generation == e.generation && w'.ledger.operations[op].recovery.record == e.record
  {
    if s.Record? {
      var pc := w.calls[c].pc;
      assert pc.context.operation in w'.ledger.operations;
    } else {
      var context := w.execs[w.calls[c].pc.ran].context;
      assert context.operation in w'.ledger.operations;
    }
  }

  /** An executable appears only in the step that turns its prepared receipt into an admitted one. */
  lemma ExecutableNeedsItsOwnAdmission(w: World, c: CallId, s: Step, w': World, e: ExecId)
    requires Inv(w) && Does(w, c, s, w') && e !in w.execs && e in w'.execs
    ensures
      var context := w'.execs[e].context;
      && s.Admit? && !w'.execs[e].consumed
      && ReceiptOk(w.ledger, context, true) && AdmittedAs(w'.ledger, context) && AdmittedAs(w'.durable, context)
  {
    StepKeeps(w, c, s, w');
    assert HasExec(w', e) && ExecOk(w', e);
    if s.Admit? {
      AdmitAdds(w, c, s, w', e);
    }
  }

  lemma AdmitAdds(w: World, c: CallId, s: Step, w': World, e: ExecId)
    requires Inv(w) && s.Admit? && DoAdmit(w, c, s, w') && !HasExec(w, e) && HasExec(w', e)
    ensures !w'.execs[e].consumed && ReceiptOk(w.ledger, w'.execs[e].context, true)
  {
    assert HasCall(w, c) && CallOk(w, c);
    assert w'.execs[e] == Exec(w.calls[c].pc.context, w.calls[c].runner, false);
  }

  /** A call whose lookup finds an admitted or rejected receipt can only replay it or give up. */
  lemma SettledReceiptOnlyReplays(w: World, c: CallId, s: Step, w': World)
    requires Inv(w) && Does(w, c, s, w') && c in w.calls && w.calls[c].pc.Entered?
    requires L.Find(w.ledger, w.calls[c].pc.request).Found?
    requires L.Find(w.ledger, w.calls[c].pc.request).receipt.stage != L.Prepared
    ensures w'.execs == w.execs && w'.starts == w.starts
    ensures s.Replay? || s.GiveUp? || s.OtherWriter? || s.Crash? || s.HostFailure?
    ensures s.Replay? || s.GiveUp? ==> c !in w'.calls
  {
  }
}
