/**
  The durable ledger of approval operations of one session (internal/session/approval_receipt.go):
  canonical receipts, the request identities bound to them, and the index of admitted targets.

  Requests arrive normalized. The parameter fingerprint and the target key are digests of the
  parameters and of the target; the model compares the values themselves, that is, it takes the
  digests to be free of collisions.
*/
module ApprovalLedger {
  import J = ApprovalJournal

  type Stamp = J.Stamp

  datatype Target = Target(plan: string, version: nat, revision: string)

  datatype Params = Params(target: Target, overrideCoverage: bool, options: string)

  datatype Request = Request(id: string, params: Params)

  datatype Stage = Rejected | Prepared | Admitted

  datatype ReceiptPhase = InJournal(phase: J.Phase) | AdmittedMark | RejectedMark

  /** The recovery envelope: the bound run generation, its owner and the journal record. */
  datatype Recovery = NoRecovery | Recovery(generation: Stamp, owner: nat, record: J.Record)

  datatype Receipt = Receipt(
    id: string,
    params: Params,
    stage: Stage,
    phase: ReceiptPhase,
    recovery: Recovery,
    rejection: string,
    created: Stamp,
    updated: Stamp,
    admitted: Stamp)

  function Generation(r: Receipt): Stamp {
    if r.recovery.Recovery? then r.recovery.generation else 0
  }

  datatype Binding = Binding(operation: string, params: Params, created: Stamp)

  datatype Ledger = Ledger(requests: map<string, Binding>, operations: map<string, Receipt>, admissions: map<Target, string>)

  const EMPTY := Ledger(map[], map[], map[])

  datatype Error = MissingRequest | MissingTarget | RequestConflict | TargetConflict | CoverageBlocked | BadRecovery | NotExist | Unverifiable

  datatype Result<+T> = Ok(value: T) | Err(error: Error)

  /** A ledger operation's answer, and whether it publishes `ledger`. */
  datatype Change = Change(ledger: Ledger, receipt: Receipt, written: bool)

  /** The current plan as the approval snapshot shows it; `open` says whether its status accepts an
      approval and its linked goal is in place. */
  datatype Snapshot = Snapshot(target: Target, open: bool, coverageBlocked: bool)

  // ---------- validity ----------

  predicate ValidTarget(t: Target) {
    t.plan != "" && t.version > 0 && t.revision != ""
  }

  predicate ValidRecovery(r: Recovery) {
    r.Recovery? && r.owner > 0
  }

  predicate Has(l: Ledger, id: string) { id in l.operations }

  predicate Bound(l: Ledger, id: string) { id in l.requests }

  predicate Indexed(l: Ledger, t: Target) { t in l.admissions }

  predicate PreparedFor(l: Ledger, id: string, t: Target) {
    id in l.operations && l.operations[id].stage == Prepared && l.operations[id].params.target == t
  }

  /** What a receipt must satisfy by itself, given the operation its target's admission names. */
  predicate ValidReceipt(id: string, r: Receipt, admission: J.Option<string>) {
    && id != "" && r.id == id && ValidTarget(r.params.target)
    && 0 < r.created <= r.updated
    && match r.stage
       case Rejected => r.rejection != "" && r.phase == RejectedMark && r.admitted == 0 && r.recovery == NoRecovery
       case Prepared => r.rejection == "" && ValidRecovery(r.recovery) && r.admitted == 0 && admission.None?
       case Admitted =>
         && r.rejection == "" && ValidRecovery(r.recovery)
         && r.created <= r.admitted <= r.updated && r.recovery.generation != 0
         && admission == J.Some(id)
  }

  function Admission(l: Ledger, t: Target): J.Option<string> {
    if t in l.admissions then J.Some(l.admissions[t]) else J.None
  }

  predicate OperationOk(l: Ledger, id: string)
    requires Has(l, id)
  {
    && ValidReceipt(id, l.operations[id], Admission(l, l.operations[id].params.target))
    && Bound(l, id) && l.requests[id].operation == id
  }

  /** A request bound to receipt `r`: its canonical identity, or an alias of the same target. */
  predicate ValidBinding(id: string, b: Binding, r: Receipt) {
    && id != "" && b.created != 0
    && if id == r.id then b.params == r.params
       else b.params.target == r.params.target && r.stage != Rejected && (r.stage == Prepared ==> b.params == r.params)
  }

  predicate BindingOk(l: Ledger, id: string)
    requires Bound(l, id)
  {
    Has(l, l.requests[id].operation) && ValidBinding(id, l.requests[id], l.operations[l.requests[id].operation])
  }

  predicate AdmissionOk(l: Ledger, t: Target)
    requires Indexed(l, t)
  {
    && Has(l, l.admissions[t])
    && l.operations[l.admissions[t]].stage == Admitted && l.operations[l.admissions[t]].params.target == t
  }

  /** validateApprovalOperations, which every read and every write goes through. */
  ghost predicate ValidLedger(l: Ledger) {
    && (forall id :: Has(l, id) ==> OperationOk(l, id))
    && (forall a, b, t :: PreparedFor(l, a, t) && PreparedFor(l, b, t) ==> a == b)
    && (forall id :: Bound(l, id) ==> BindingOk(l, id))
    && (forall t :: Indexed(l, t) ==> AdmissionOk(l, t))
  }

  // ---------- the operations ----------

  datatype Lookup = NotFound | Found(receipt: Receipt, needsAlias: bool) | Contradiction

  /** lookupApprovalOperation: by request identity first, then by target. */
  ghost function Find(l: Ledger, rq: Request): Lookup
    requires ValidLedger(l)
  {
    var t := rq.params.target;
    if Bound(l, rq.id) then
      assert BindingOk(l, rq.id);
      if l.requests[rq.id].params != rq.params then Contradiction
      else Found(l.operations[l.requests[rq.id].operation], false)
    else if Indexed(l, t) then
      assert AdmissionOk(l, t);
      Found(l.operations[l.admissions[t]], true)
    else if exists id :: PreparedFor(l, id, t) then
      var id :| PreparedFor(l, id, t);
      if l.operations[id].params != rq.params then Contradiction else Found(l.operations[id], true)
    else NotFound
  }

  /** writeApprovalOperations refuses to publish a ledger that would not read back. */
  ghost function Publish(l: Ledger, r: Receipt): Result<Change> {
    if ValidLedger(l) then Ok(Change(l, r, true)) else Err(Unverifiable)
  }

  ghost function Bind(l: Ledger, rq: Request, operation: string, now: Stamp): Result<Change>
    requires ValidLedger(l)
  {
    if operation !in l.operations then Err(NotExist)
    else
      var r := l.operations[operation];
      if rq.id in l.requests then
        if l.requests[rq.id].operation != operation || l.requests[rq.id].params != rq.params then Err(RequestConflict)
        else Publish(l, r)
      else if r.params.target != rq.params.target || r.stage == Rejected || (r.stage == Prepared && r.params != rq.params) then
        Err(RequestConflict)
      else Publish(l.(requests := l.requests[rq.id := Binding(operation, rq.params, now)]), r)
  }

  predicate TargetCurrent(s: Snapshot, t: Target) {
    s.target == t && s.open
  }

  /** createApprovalOperation: a new receipt, rejected when `rejection` is given, or the prior one. */
  ghost function Create(l: Ledger, rq: Request, recovery: Recovery, rejection: string, s: Snapshot, now: Stamp): Result<Change>
    requires ValidLedger(l)
  {
    if rq.id == "" then Err(MissingRequest)
    else if !ValidTarget(rq.params.target) then Err(MissingTarget)
    else match Find(l, rq)
      case Contradiction => Err(RequestConflict)
      case Found(r, needsAlias) => if needsAlias then Bind(l, rq, r.id, now) else Ok(Change(l, r, false))
      case NotFound =>
        if !TargetCurrent(s, rq.params.target) then Err(TargetConflict)
        else if rejection == "" && s.coverageBlocked && !rq.params.overrideCoverage then Err(CoverageBlocked)
        else if rejection == "" && !ValidRecovery(recovery) then Err(BadRecovery)
        else
          var r := if rejection == ""
                   then Receipt(rq.id, rq.params, Prepared, InJournal(J.Validated), recovery, "", now, now, 0)
                   else Receipt(rq.id, rq.params, Rejected, RejectedMark, NoRecovery, rejection, now, now, 0);
          Publish(l.(operations := l.operations[rq.id := r], requests := l.requests[rq.id := Binding(rq.id, rq.params, now)]), r)
  }

  ghost function Checkpoint(l: Ledger, operation: string, generation: Stamp, phase: J.Phase, recovery: Recovery, now: Stamp): Result<Change>
    requires ValidLedger(l)
  {
    if operation !in l.operations then Err(NotExist)
    else
      var r := l.operations[operation];
      if r.stage == Rejected || Generation(r) != generation
         || (generation != 0 && (!recovery.Recovery? || recovery.generation != generation)) then Err(RequestConflict)
      else if !ValidRecovery(recovery) then Err(BadRecovery)
      else
        var next := r.(phase := InJournal(phase), recovery := recovery, updated := now);
        Publish(l.(operations := l.operations[operation := next]), next)
  }

  ghost function Admit(l: Ledger, operation: string, generation: Stamp, s: Snapshot, now: Stamp): Result<Change>
    requires ValidLedger(l)
  {
    if operation !in l.operations then Err(NotExist)
    else
      var r := l.operations[operation];
      var t := r.params.target;
      if generation == 0 || Generation(r) != generation then Err(RequestConflict)
      else if r.stage == Admitted then Ok(Change(l, r, false))
      else if r.stage != Prepared || r.phase != InJournal(J.Prepared) then Err(RequestConflict)
      else if t in l.admissions then Err(RequestConflict)
      else if !TargetCurrent(s, t) then Err(TargetConflict)
      else
        var next := r.(stage := Admitted, phase := AdmittedMark, admitted := now, updated := now);
        Publish(l.(operations := l.operations[operation := next], admissions := l.admissions[t := operation]), next)
  }

  // ---------- no operation can write a ledger that will not read back ----------

  ghost predicate ClockPast(l: Ledger, now: Stamp) {
    now != 0 && forall id :: Has(l, id) ==> l.operations[id].updated <= now
  }

  lemma AliasIsValid(l: Ledger, rq: Request, operation: string, now: Stamp)
    requires ValidLedger(l) && now != 0 && rq.id != "" && !Bound(l, rq.id) && Has(l, operation)
    requires
      var r := l.operations[operation];
      r.params.target == rq.params.target && r.stage != Rejected && (r.stage == Prepared ==> r.params == rq.params)
    ensures ValidLedger(l.(requests := l.requests[rq.id := Binding(operation, rq.params, now)]))
  {
    var next := l.(requests := l.requests[rq.id := Binding(operation, rq.params, now)]);
    assert OperationOk(l, operation);
    forall id | Has(next, id)
      ensures OperationOk(next, id)
    {
      assert Has(l, id) && OperationOk(l, id);
    }
    forall id | Bound(next, id)
      ensures BindingOk(next, id)
    {
      if id != rq.id {
        assert Bound(l, id) && BindingOk(l, id);
        assert Has(next, l.requests[id].operation);
      } else {
        assert Has(next, operation);
      }
    }
    forall t | Indexed(next, t)
      ensures AdmissionOk(next, t)
    {
      assert Indexed(l, t) && AdmissionOk(l, t);
      assert Has(next, l.admissions[t]);
    }
    forall a, b, t | PreparedFor(next, a, t) && PreparedFor(next, b, t)
      ensures a == b
    {
      assert PreparedFor(l, a, t) && PreparedFor(l, b, t);
    }
  }

  lemma BindPublishes(l: Ledger, rq: Request, operation: string, now: Stamp)
    requires ValidLedger(l) && now != 0 && rq.id != ""
    ensures Bind(l, rq, operation, now) != Err(Unverifiable)
    ensures Bind(l, rq, operation, now).Ok? ==> Extends(l, Bind(l, rq, operation, now).value.ledger)
  {
    if operation in l.operations {
      var r := l.operations[operation];
      if Bound(l, rq.id) {
        ExtendsReflexive(l);
      } else if r.params.target == rq.params.target && r.stage != Rejected && (r.stage == Prepared ==> r.params == rq.params) {
        AliasIsValid(l, rq, operation, now);
        var next := l.(requests := l.requests[rq.id := Binding(operation, rq.params, now)]);
        assert forall id :: Has(l, id) ==> Kept(l, next, id);
      }
    }
  }

  /** Whatever is published by a binding keeps every earlier fact and every receipt. */
  lemma BindExtends(l: Ledger, rq: Request, operation: string, now: Stamp)
    requires ValidLedger(l) && Bind(l, rq, operation, now).Ok?
    ensures Extends(l, Bind(l, rq, operation, now).value.ledger)
    ensures Bind(l, rq, operation, now).value.ledger.operations == l.operations
  {
    ExtendsReflexive(l);
    var next := Bind(l, rq, operation, now).value.ledger;
    forall id | Has(l, id)
      ensures Kept(l, next, id)
    {
      assert Kept(l, l, id);
    }
  }

  lemma NewReceiptIsValid(l: Ledger, rq: Request, r: Receipt, now: Stamp)
    requires ValidLedger(l) && now != 0 && !Bound(l, rq.id) && !Indexed(l, rq.params.target)
    requires forall id :: !PreparedFor(l, id, rq.params.target)
    requires r.params == rq.params && r.stage != Admitted && ValidReceipt(rq.id, r, J.None)
    ensures !Has(l, rq.id)
    ensures ValidLedger(l.(operations := l.operations[rq.id := r], requests := l.requests[rq.id := Binding(rq.id, rq.params, now)]))
  {
    var next := l.(operations := l.operations[rq.id := r], requests := l.requests[rq.id := Binding(rq.id, rq.params, now)]);
    assert Has(l, rq.id) ==> OperationOk(l, rq.id);
    forall id | Has(next, id)
      ensures OperationOk(next, id)
    {
      if id != rq.id {
        assert Has(l, id) && OperationOk(l, id);
      }
    }
    forall id | Bound(next, id)
      ensures BindingOk(next, id)
    {
      if id != rq.id {
        assert Bound(l, id) && BindingOk(l, id);
        assert Has(next, l.requests[id].operation);
      } else {
        assert Has(next, rq.id);
      }
    }
    forall t | Indexed(next, t)
      ensures AdmissionOk(next, t)
    {
      assert Indexed(l, t) && AdmissionOk(l, t);
      assert Has(next, l.admissions[t]);
    }
    forall a, b, t | PreparedFor(next, a, t) && PreparedFor(next, b, t)
      ensures a == b
    {
      assert a != rq.id ==> PreparedFor(l, a, t);
      assert b != rq.id ==> PreparedFor(l, b, t);
    }
  }

  lemma CreatePublishes(l: Ledger, rq: Request, recovery: Recovery, rejection: string, s: Snapshot, now: Stamp)
    requires ValidLedger(l) && now != 0
    ensures Create(l, rq, recovery, rejection, s, now) != Err(Unverifiable)
    ensures Create(l, rq, recovery, rejection, s, now).Ok? ==> Extends(l, Create(l, rq, recovery, rejection, s, now).value.ledger)
  {
    if rq.id != "" && ValidTarget(rq.params.target) {
      match Find(l, rq) {
        case Contradiction =>
        case Found(r, needsAlias) =>
          BindPublishes(l, rq, r.id, now);
          ExtendsReflexive(l);
        case NotFound =>
          if TargetCurrent(s, rq.params.target) && (rejection != "" || ValidRecovery(recovery)) {
            var r := if rejection == ""
                     then Receipt(rq.id, rq.params, Prepared, InJournal(J.Validated), recovery, "", now, now, 0)
                     else Receipt(rq.id, rq.params, Rejected, RejectedMark, NoRecovery, rejection, now, now, 0);
            NewReceiptIsValid(l, rq, r, now);
            var next := l.(operations := l.operations[rq.id := r], requests := l.requests[rq.id := Binding(rq.id, rq.params, now)]);
            assert forall id :: Has(l, id) ==> Kept(l, next, id);
          }
      }
    }
  }

  /** Replacing a receipt by a valid one of the same parameters keeps the ledger valid; `admissions`
      gains at most the admission of this very operation. */
  lemma ReplacedReceiptIsValid(l: Ledger, operation: string, next: Receipt, admissions: map<Target, string>)
    requires ValidLedger(l) && Has(l, operation)
    requires next.params == l.operations[operation].params && next.stage != Rejected && l.operations[operation].stage != Rejected
    requires next.stage == l.operations[operation].stage ==> admissions == l.admissions
    requires next.stage != l.operations[operation].stage ==>
      next.stage == Admitted && admissions == l.admissions[next.params.target := operation]
    requires ValidReceipt(operation, next, Admission(l.(admissions := admissions), next.params.target))
    ensures ValidLedger(l.(operations := l.operations[operation := next], admissions := admissions))
  {
    var published := l.(operations := l.operations[operation := next], admissions := admissions);
    assert OperationOk(l, operation);
    assert l.operations[operation].stage == Prepared ==> PreparedFor(l, operation, next.params.target);
    forall id | Has(published, id)
      ensures OperationOk(published, id)
    {
      if id != operation {
        assert Has(l, id) && OperationOk(l, id);
        assert l.operations[id].stage == Prepared ==> PreparedFor(l, id, l.operations[id].params.target);
      }
    }
    forall id | Bound(published, id)
      ensures BindingOk(published, id)
    {
      assert Bound(l, id) && BindingOk(l, id);
      assert Has(published, l.requests[id].operation);
    }
    forall t | Indexed(published, t)
      ensures AdmissionOk(published, t)
    {
      if Indexed(l, t) {
        assert AdmissionOk(l, t);
      }
      assert Has(published, published.admissions[t]);
    }
    forall a, b, t | PreparedFor(published, a, t) && PreparedFor(published, b, t)
      ensures a == b
    {
      assert PreparedFor(l, a, t) && PreparedFor(l, b, t);
    }
  }

  /** A checkpoint is refused as unverifiable only when the clock fell behind the receipt. */
  lemma CheckpointPublishes(l: Ledger, operation: string, generation: Stamp, phase: J.Phase, recovery: Recovery, now: Stamp)
    requires ValidLedger(l)
    ensures Checkpoint(l, operation, generation, phase, recovery, now) == Err(Unverifiable) ==>
              operation in l.operations && (now < l.operations[operation].created || now < l.operations[operation].admitted)
    ensures Checkpoint(l, operation, generation, phase, recovery, now).Ok? ==>
              && Extends(l, Checkpoint(l, operation, generation, phase, recovery, now).value.ledger)
              && now >= l.operations[operation].created && now >= l.operations[operation].admitted
  {
    if Has(l, operation) {
      var r := l.operations[operation];
      assert OperationOk(l, operation);
      var next := r.(phase := InJournal(phase), recovery := recovery, updated := now);
      var published := l.(operations := l.operations[operation := next]);
      assert Has(published, operation);
      if r.stage != Rejected && Generation(r) == generation && ValidRecovery(recovery)
         && (generation != 0 ==> recovery.generation == generation) {
        if r.created <= now && r.admitted <= now {
          ReplacedReceiptIsValid(l, operation, next, l.admissions);
          assert l.(operations := l.operations[operation := next], admissions := l.admissions) == published;
          assert forall id :: Has(l, id) ==> Kept(l, published, id);
        } else {
          assert !OperationOk(published, operation);
        }
      }
    }
  }

  /** With a clock past every receipt, an admission is never refused as unverifiable. */
  lemma AdmitPublishes(l: Ledger, operation: string, generation: Stamp, s: Snapshot, now: Stamp)
    requires ValidLedger(l) && ClockPast(l, now)
    ensures Admit(l, operation, generation, s, now) != Err(Unverifiable)
  {
    if Has(l, operation) && l.operations[operation].stage == Prepared && Generation(l.operations[operation]) == generation != 0 {
      var r := l.operations[operation];
      assert OperationOk(l, operation);
      var next := r.(stage := Admitted, phase := AdmittedMark, admitted := now, updated := now);
      var t := r.params.target;
      ReplacedReceiptIsValid(l, operation, next, l.admissions[t := operation]);
    }
  }

  /** Whatever the clock says, an admission that is published keeps every earlier fact. */
  lemma AdmitExtends(l: Ledger, operation: string, generation: Stamp, s: Snapshot, now: Stamp)
    requires ValidLedger(l) && Admit(l, operation, generation, s, now).Ok?
    ensures Extends(l, Admit(l, operation, generation, s, now).value.ledger)
  {
    ExtendsReflexive(l);
    assert OperationOk(l, operation) by { assert Has(l, operation); }
    var next := Admit(l, operation, generation, s, now).value.ledger;
    assert forall id :: Has(l, id) ==> Kept(l, next, id);
  }

  // ---------- what every operation keeps ----------

  /** A receipt never loses its identity, its bound generation, its admission or its rejection. */
  predicate Advances(r: Receipt, next: Receipt) {
    && next.id == r.id && next.params == r.params && next.created == r.created
    && (Generation(r) != 0 ==> Generation(next) == Generation(r))
    && match r.stage
       case Rejected => next == r
       case Prepared => next.stage != Rejected
       case Admitted => next.stage == Admitted && next.admitted == r.admitted
  }

  predicate Kept(l: Ledger, next: Ledger, id: string)
    requires Has(l, id)
  {
    Has(next, id) && Advances(l.operations[id], next.operations[id])
  }

  ghost predicate Extends(l: Ledger, next: Ledger) {
    && ValidLedger(next)
    && (forall id :: Has(l, id) ==> Kept(l, next, id))
    && (forall id :: Bound(l, id) ==> Bound(next, id) && next.requests[id] == l.requests[id])
    && (forall t :: Indexed(l, t) ==> Indexed(next, t) && next.admissions[t] == l.admissions[t])
  }

  lemma ExtendsReflexive(l: Ledger)
    requires ValidLedger(l)
    ensures Extends(l, l)
  {
    assert forall id :: Has(l, id) ==> Kept(l, l, id);
  }

  lemma ExtendsTransitive(a: Ledger, b: Ledger, c: Ledger)
    requires Extends(a, b) && Extends(b, c)
    ensures Extends(a, c)
  {
    forall id | Has(a, id)
      ensures Kept(a, c, id)
    {
      assert Kept(a, b, id) && Has(b, id) && Kept(b, c, id);
    }
  }

  /** Once a request has an answer, the same request finds the same operation in every later
      ledger, never as a new alias. */
  lemma AnswerIsStable(l: Ledger, rq: Request, recovery: Recovery, rejection: string, s: Snapshot, now: Stamp, later: Ledger)
    requires ValidLedger(l) && now != 0 && Create(l, rq, recovery, rejection, s, now).Ok?
    requires Extends(Create(l, rq, recovery, rejection, s, now).value.ledger, later)
    ensures
      var answer := Create(l, rq, recovery, rejection, s, now).value.receipt;
      var again := Find(later, rq);
      again.Found? && !again.needsAlias && again.receipt.id == answer.id && Advances(answer, again.receipt)
  {
    var change := Create(l, rq, recovery, rejection, s, now).value;
    CreateBinds(l, rq, recovery, rejection, s, now);
    assert Bound(change.ledger, rq.id) && Has(change.ledger, change.receipt.id);
    assert Kept(change.ledger, later, change.receipt.id);
    assert Bound(later, rq.id);
  }

  /** A successful creation leaves its request bound to the receipt it answers with. */
  lemma CreateBinds(l: Ledger, rq: Request, recovery: Recovery, rejection: string, s: Snapshot, now: Stamp)
    requires ValidLedger(l) && now != 0 && Create(l, rq, recovery, rejection, s, now).Ok?
    ensures
      var change := Create(l, rq, recovery, rejection, s, now).value;
      && ValidLedger(change.ledger) && Bound(change.ledger, rq.id) && change.ledger.requests[rq.id].params == rq.params
      && change.ledger.requests[rq.id].operation == change.receipt.id
      && Has(change.ledger, change.receipt.id) && change.ledger.operations[change.receipt.id] == change.receipt
  {
    CreatePublishes(l, rq, recovery, rejection, s, now);
    var found := Find(l, rq);
    if found.Found? {
      FindIsCanonical(l, rq);
    }
  }

  lemma FindIsCanonical(l: Ledger, rq: Request)
    requires ValidLedger(l) && Find(l, rq).Found?
    ensures
      var found := Find(l, rq);
      && Has(l, found.receipt.id) && l.operations[found.receipt.id] == found.receipt
      && found.needsAlias == !Bound(l, rq.id)
      && (!found.needsAlias ==> l.requests[rq.id].operation == found.receipt.id)
      && (found.needsAlias ==> found.receipt.stage != Rejected)
  {
    var found := Find(l, rq);
    if Bound(l, rq.id) {
      assert BindingOk(l, rq.id);
      assert OperationOk(l, l.requests[rq.id].operation);
    } else if Indexed(l, rq.params.target) {
      assert AdmissionOk(l, rq.params.target);
      assert OperationOk(l, l.admissions[rq.params.target]);
    } else {
      var id :| PreparedFor(l, id, rq.params.target) && l.operations[id] == found.receipt;
      assert Has(l, id) && OperationOk(l, id);
    }
  }

  /** When a lookup finds nothing, and when it refuses: a request is known by its identity, then by the
      admitted operation of its target, then by a prepared one, and other parameters contradict it. */
  lemma FindIff(l: Ledger, rq: Request)
    requires ValidLedger(l)
    ensures Find(l, rq).NotFound? <==>
              && rq.id !in l.requests && rq.params.target !in l.admissions
              && forall id :: id in l.operations && l.operations[id].stage == Prepared ==> l.operations[id].params.target != rq.params.target
    ensures Find(l, rq).Contradiction? <==>
              || (rq.id in l.requests && l.requests[rq.id].params != rq.params)
              || (rq.id !in l.requests && rq.params.target !in l.admissions &&
                  exists id :: PreparedFor(l, id, rq.params.target) && l.operations[id].params != rq.params)
  {
    var t := rq.params.target;
    forall id | id in l.operations && l.operations[id].stage == Prepared && l.operations[id].params.target == t
      ensures PreparedFor(l, id, t)
    {
    }
    forall a, b | PreparedFor(l, a, t) && PreparedFor(l, b, t)
      ensures a == b
    {
    }
  }

  /** When a binding succeeds, and what it writes: the alias of a receipt that was not rejected, with the
      same target, and while it is prepared the same parameters. A known request must name it already. */
  lemma BindIff(l: Ledger, rq: Request, operation: string, now: Stamp)
    requires ValidLedger(l) && now != 0 && rq.id != ""
    ensures Bind(l, rq, operation, now).Ok? <==>
              && operation in l.operations
              && var r := l.operations[operation];
                 if rq.id in l.requests then l.requests[rq.id].operation == operation && l.requests[rq.id].params == rq.params
                 else match r.stage
                      case Rejected => false
                      case Prepared => r.params == rq.params
                      case Admitted => r.params.target == rq.params.target
    ensures Bind(l, rq, operation, now).Ok? ==>
              var change := Bind(l, rq, operation, now).value;
              && change.receipt == l.operations[operation] && change.written
              && change.ledger.operations == l.operations && change.ledger.admissions == l.admissions
              && change.ledger.requests == (if rq.id in l.requests then l.requests else l.requests[rq.id := Binding(operation, rq.params, now)])
  {
    BindPublishes(l, rq, operation, now);
  }

  /** When a new receipt is made: the request and its target are named, the snapshot shows that very
      target open, and a receipt that is not a rejection has its coverage and its recovery in order. */
  lemma CreateIff(l: Ledger, rq: Request, recovery: Recovery, rejection: string, s: Snapshot, now: Stamp)
    requires ValidLedger(l) && now != 0 && Find(l, rq).NotFound?
    ensures Create(l, rq, recovery, rejection, s, now).Ok? <==>
              && rq.id != "" && rq.params.target.plan != "" && rq.params.target.version > 0 && rq.params.target.revision != ""
              && s.target == rq.params.target && s.open
              && (rejection == "" ==>
                    (s.coverageBlocked ==> rq.params.overrideCoverage) && recovery.Recovery? && recovery.owner > 0)
  {
    CreatePublishes(l, rq, recovery, rejection, s, now);
  }

  /** A creation that found nothing before adds exactly the one new receipt and its request. */
  lemma CreateEffect(l: Ledger, rq: Request, recovery: Recovery, rejection: string, s: Snapshot, now: Stamp)
    requires ValidLedger(l) && now != 0 && Find(l, rq).NotFound? && Create(l, rq, recovery, rejection, s, now).Ok?
    ensures
      var change := Create(l, rq, recovery, rejection, s, now).value;
      var r := change.receipt;
      && change.written && Extends(l, change.ledger) && !Has(l, rq.id)
      && change.ledger.operations == l.operations[rq.id := r] && change.ledger.admissions == l.admissions
      && change.ledger.requests == l.requests[rq.id := Binding(rq.id, rq.params, now)]
      && r.id == rq.id && r.params == rq.params && r.rejection == rejection
      && r.created == r.updated == now && r.admitted == 0
      && (rejection == "" ==> r.stage == Prepared && r.phase == InJournal(J.Validated) && r.recovery == recovery)
      && (rejection != "" ==> r.stage == Rejected && r.phase == RejectedMark && r.recovery == NoRecovery)
  {
    CreatePublishes(l, rq, recovery, rejection, s, now);
    assert Has(l, rq.id) ==> OperationOk(l, rq.id);
  }

  /** A creation that finds an earlier receipt answers with it whatever the snapshot shows now, and
      writes at most the alias of the request. */
  lemma CreateAnswers(l: Ledger, rq: Request, recovery: Recovery, rejection: string, s: Snapshot, now: Stamp)
    requires ValidLedger(l) && now != 0 && rq.id != "" && ValidTarget(rq.params.target) && Find(l, rq).Found?
    ensures
      var found := Find(l, rq);
      && Create(l, rq, recovery, rejection, s, now).Ok?
      && var change := Create(l, rq, recovery, rejection, s, now).value;
         && change.receipt == found.receipt && (change.written <==> rq.id !in l.requests)
         && change.ledger.operations == l.operations && change.ledger.admissions == l.admissions
         && change.ledger.requests ==
              (if rq.id in l.requests then l.requests else l.requests[rq.id := Binding(found.receipt.id, rq.params, now)])
  {
    FindIsCanonical(l, rq);
    BindIff(l, rq, Find(l, rq).receipt.id, now);
    var found := Find(l, rq);
    if found.needsAlias && !Indexed(l, rq.params.target) {
      var id :| PreparedFor(l, id, rq.params.target) && l.operations[id] == found.receipt;
      assert OperationOk(l, id);
    } else if found.needsAlias {
      assert AdmissionOk(l, rq.params.target);
    }
  }

  /** When a checkpoint succeeds, and what it writes: the phase, the recovery and the time of a receipt
      that was not rejected and is bound to the caller's generation, which a bound receipt keeps. */
  lemma CheckpointIff(l: Ledger, operation: string, generation: Stamp, phase: J.Phase, recovery: Recovery, now: Stamp)
    requires ValidLedger(l) && ClockPast(l, now)
    ensures Checkpoint(l, operation, generation, phase, recovery, now).Ok? <==>
              && operation in l.operations && l.operations[operation].stage in {Prepared, Admitted}
              && Generation(l.operations[operation]) == generation
              && recovery.Recovery? && recovery.owner > 0 && generation in {0, recovery.generation}
    ensures Checkpoint(l, operation, generation, phase, recovery, now).Ok? ==>
              var change := Checkpoint(l, operation, generation, phase, recovery, now).value;
              var r := l.operations[operation];
              && change.receipt == Receipt(r.id, r.params, r.stage, InJournal(phase), recovery, r.rejection, r.created, now, r.admitted)
              && change.ledger == Ledger(l.requests, l.operations[operation := change.receipt], l.admissions) && change.written
  {
    CheckpointPublishes(l, operation, generation, phase, recovery, now);
    assert Has(l, operation) ==> OperationOk(l, operation);
  }

  /** When an admission succeeds: the receipt is bound to the caller's claim, and is either admitted
      already, or prepared to the end while the snapshot shows its own target still open. */
  lemma AdmitIff(l: Ledger, operation: string, generation: Stamp, s: Snapshot, now: Stamp)
    requires ValidLedger(l) && ClockPast(l, now)
    ensures Admit(l, operation, generation, s, now).Ok? <==>
              && operation in l.operations && generation != 0 && Generation(l.operations[operation]) == generation
              && match l.operations[operation].stage
                 case Rejected => false
                 case Prepared =>
                   && l.operations[operation].phase == InJournal(J.Prepared)
                   && s.target == l.operations[operation].params.target && s.open
                 case Admitted => true
  {
    AdmitPublishes(l, operation, generation, s, now);
    if Has(l, operation) {
      assert OperationOk(l, operation);
    }
  }

  /** Admitting a prepared receipt happens over an open snapshot of its target, and publishes the change
      of its stage and the index entry of its target. */
  lemma AdmitEffect(l: Ledger, operation: string, generation: Stamp, s: Snapshot, now: Stamp)
    requires ValidLedger(l) && Admit(l, operation, generation, s, now).Ok?
    requires Has(l, operation) && l.operations[operation].stage == Prepared
    ensures
      var change := Admit(l, operation, generation, s, now).value;
      var r := l.operations[operation];
      && s.target == r.params.target && s.open
      && r.phase == InJournal(J.Prepared) && Generation(r) == generation != 0
      && change.written && Extends(l, change.ledger)
      && change.receipt == Receipt(r.id, r.params, Admitted, AdmittedMark, r.recovery, r.rejection, r.created, now, now)
      && change.ledger == Ledger(l.requests, l.operations[operation := change.receipt], l.admissions[r.params.target := operation])
  {
    AdmitExtends(l, operation, generation, s, now);
  }

  /** An admitted receipt is answered as it stands, whatever the snapshot shows now. */
  lemma AdmittedStands(l: Ledger, operation: string, generation: Stamp, s: Snapshot, now: Stamp)
    requires ValidLedger(l) && Has(l, operation) && l.operations[operation].stage == Admitted
    requires generation == Generation(l.operations[operation])
    ensures Admit(l, operation, generation, s, now) == Ok(Change(l, l.operations[operation], false))
  {
    assert OperationOk(l, operation);
  }

  /** Two admitted operations never share a target. */
  lemma OneAdmissionPerTarget(l: Ledger, a: string, b: string)
    requires ValidLedger(l) && Has(l, a) && Has(l, b)
    requires l.operations[a].stage == Admitted && l.operations[b].stage == Admitted
    requires l.operations[a].params.target == l.operations[b].params.target
    ensures a == b
  {
    assert OperationOk(l, a) && OperationOk(l, b);
  }
}
