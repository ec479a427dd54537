/**
  The hard-fit loop: the four phases in order, one accepted step per pass
  (internal/runtime/request_budget.go:265-413, 504-539, 717-774).
*/
module HardFitLoop {
  import opened ReplayClosure
  import opened Protection
  import opened RequestBudget
  import opened Survival
  import opened HardFit

  const MAX_PASSES := 256

  datatype Action = Action(pass: nat, kind: Kind, beforeBytes: Int, afterBytes: Int, beforeTokens: Int, afterTokens: Int, affected: nat)

  datatype Outcome =
    | Accepted(view: seq<Message>, after: Snapshot, action: Action)
    | Refused
    | Broken(after: Snapshot)

  /** The estimator had an answer, and it is no smaller than before. */
  predicate TurnedDown(env: Env, before: Snapshot, view: seq<Message>) {
    var after := Preflight(env, view);
    (after.code == NoCode || after.code == Exceeded) && after.wireBytes >= before.wireBytes
  }

  /** evaluateRequestBudgetCandidate. */
  function Evaluate(env: Env, before: Snapshot, view: seq<Message>, kind: Kind, affected: nat, pass: nat): (o: Outcome)
    ensures o.Refused? <==> TurnedDown(env, before, view)
    ensures o.Accepted? ==> o.view == view && o.after == Preflight(env, view) && o.after.wireBytes < before.wireBytes
    ensures o.Accepted? ==> o.after.code == NoCode || o.after.code == Exceeded
    ensures o.Accepted? ==>
              && o.action.pass == pass && o.action.kind == kind
              && o.action.beforeBytes == before.wireBytes && o.action.afterBytes == o.after.wireBytes
    ensures o.Broken? ==> o.after.code == EstimatorUnavailable || o.after.code == EstimateFailed
  {
    var after := Preflight(env, view);
    if after.code != NoCode && after.code != Exceeded then Broken(after)
    else if after.wireBytes >= before.wireBytes then Refused
    else
      Accepted(view, after,
               Action(pass, kind, before.wireBytes, after.wireBytes, before.inputTokens, after.inputTokens, affected))
  }

  // ---------- the phases ----------

  /** Result `j` of message `i` can be pointerized, giving `view`. */
  ghost predicate Pointable(env: Env, ms: seq<Message>, i: int, j: int, view: seq<Message>) {
    IsResult(ms, i, j) && ms[i].role == Tool && PointerCandidate(env, ms, i, j) == Some(view)
  }

  predicate Earlier(i: int, j: int, m: int, n: int) {
    i < m || (i == m && j < n)
  }

  /** Every pointer candidate before (`m`, `n`) was turned down. */
  ghost predicate PointersTurnedDown(env: Env, ms: seq<Message>, before: Snapshot, m: int, n: int) {
    forall i, j, view :: Earlier(i, j, m, n) && Pointable(env, ms, i, j, view) ==> TurnedDown(env, before, view)
  }

  /** The oldest result that is not turned down decides the pass. */
  ghost predicate PointerPass(env: Env, ms: seq<Message>, before: Snapshot, pass: nat, o: Outcome, i: int, j: int, view: seq<Message>) {
    Pointable(env, ms, i, j, view) && o == Evaluate(env, before, view, Pointerize, 1, pass) && PointersTurnedDown(env, ms, before, i, j)
  }

  /** tryPointerizeRecoverableResult. */
  method TryPointerize(env: Env, ms: seq<Message>, before: Snapshot, pass: nat) returns (o: Outcome)
    ensures o.Refused? ==> PointersTurnedDown(env, ms, before, |ms|, 0)
    ensures !o.Refused? ==> exists i, j, view :: PointerPass(env, ms, before, pass, o, i, j, view)
  {
    for i := 0 to |ms|
      invariant PointersTurnedDown(env, ms, before, i, 0)
    {
      if ms[i].role != Tool {
        continue;
      }
      for j := 0 to |ms[i].results|
        invariant PointersTurnedDown(env, ms, before, i, j)
      {
        var candidate := PointerizeResult(env, ms, i, j);
        if candidate.None? {
          continue;
        }
        o := Evaluate(env, before, candidate.value, Pointerize, 1, pass);
        if !o.Refused? {
          assert PointerPass(env, ms, before, pass, o, i, j, candidate.value);
          return;
        }
      }
    }
    o := Refused;
  }

  function Without(ms: seq<Message>, i: nat): seq<Message>
    requires i < |ms|
  {
    Prune(ms, MessageClosure(Bones(ms), i), 0)
  }

  /** Every droppable closure of a message before `m` was turned down. */
  ghost predicate DropsTurnedDown(env: Env, ms: seq<Message>, before: Snapshot, m: nat) {
    forall i :: 0 <= i < m && i < |ms| ==> DropTurnedDown(env, ms, before, i)
  }

  /** The messages gone through so far, latest first. */
  datatype Past = Nothing | After(past: Past, index: nat)

  /** The first `m` messages, in order. */
  predicate Reaches(past: Past, m: nat) {
    match past
    case Nothing => m == 0
    case After(rest, i) => m == i + 1 && Reaches(rest, i)
  }

  ghost predicate PastTurnedDown(env: Env, ms: seq<Message>, before: Snapshot, past: Past) {
    match past
    case Nothing => true
    case After(rest, i) => PastTurnedDown(env, ms, before, rest) && i < |ms| && DropTurnedDown(env, ms, before, i)
  }

  lemma {:induction false} PastHas(env: Env, ms: seq<Message>, before: Snapshot, past: Past, m: nat, i: nat)
    requires PastTurnedDown(env, ms, before, past) && Reaches(past, m) && i < m && i < |ms|
    ensures DropTurnedDown(env, ms, before, i)
  {
    match past {
      case Nothing =>
      case After(rest, last) =>
        if i != last {
          PastHas(env, ms, before, rest, last, i);
        }
    }
  }

  lemma PastIsDrops(env: Env, ms: seq<Message>, before: Snapshot, past: Past, m: nat)
    requires PastTurnedDown(env, ms, before, past) && Reaches(past, m)
    ensures DropsTurnedDown(env, ms, before, m)
  {
    forall i | 0 <= i < m && i < |ms|
      ensures DropTurnedDown(env, ms, before, i)
    {
      PastHas(env, ms, before, past, m, i);
    }
  }

  /** The messages whose closure cannot be dropped, or whose drop is turned down. */
  ghost function Undropped(env: Env, ms: seq<Message>, before: Snapshot): iset<nat> {
    iset i: nat | i < |ms| && (Droppable(Bones(ms), i) ==> TurnedDown(env, before, Without(ms, i)))
  }

  ghost predicate DropTurnedDown(env: Env, ms: seq<Message>, before: Snapshot, i: nat) {
    i in Undropped(env, ms, before)
  }

  /** The oldest droppable closure that is not turned down decides the pass. */
  ghost predicate DropPass(env: Env, ms: seq<Message>, before: Snapshot, pass: nat, o: Outcome, i: nat) {
    i < |ms| && DropDecides(env, ms, before, pass, o, i) && DropsTurnedDown(env, ms, before, i)
  }

  ghost predicate DropDecides(env: Env, ms: seq<Message>, before: Snapshot, pass: nat, o: Outcome, i: nat)
    requires i < |ms|
  {
    && Droppable(Bones(ms), i)
    && o == Evaluate(env, before, Without(ms, i), Drop, |MessageClosure(Bones(ms), i).touched|, pass)
  }

  /** A signature seen before belongs to a closure that was turned down. */
  ghost predicate SeenTurnedDown(env: Env, ms: seq<Message>, before: Snapshot, seen: set<(set<nat>, set<string>)>) {
    forall i :: 0 <= i < |ms| && Signature(ms, i) in seen ==> DropTurnedDown(env, ms, before, i)
  }

  /** replayClosureSignature, before it is printed. */
  function Signature(ms: seq<Message>, i: nat): (set<nat>, set<string>)
    requires i < |ms|
  {
    (MessageClosure(Bones(ms), i).touched, MessageClosure(Bones(ms), i).callIds)
  }

  lemma SignatureSeen(env: Env, ms: seq<Message>, before: Snapshot, seen: set<(set<nat>, set<string>)>, i: nat)
    requires i < |ms| && SeenTurnedDown(env, ms, before, seen) && DropTurnedDown(env, ms, before, i)
    requires Droppable(Bones(ms), i)
    ensures SeenTurnedDown(env, ms, before, seen + {Signature(ms, i)})
  {
    forall j | 0 <= j < |ms| && Signature(ms, j) == Signature(ms, i)
      ensures DropTurnedDown(env, ms, before, j)
    {
      TouchedDetermines(Bones(ms), i, j);
    }
  }

  /** What tryDropOldestReplayClosure does with message `i`: refused when there is nothing to try. */
  method AttemptDrop(env: Env, ms: seq<Message>, before: Snapshot, pass: nat, i: nat, protected: set<nat>,
                     seen: set<(set<nat>, set<string>)>) returns (o: Outcome, seen': set<(set<nat>, set<string>)>)
    requires i < |ms| && protected == Protected(Bones(ms)) && SeenTurnedDown(env, ms, before, seen)
    ensures o.Refused? ==> SeenTurnedDown(env, ms, before, seen') && DropTurnedDown(env, ms, before, i)
    ensures !o.Refused? ==> DropDecides(env, ms, before, pass, o, i)
  {
    o, seen' := Refused, seen;
    if i in protected {
      return;
    }
    var closure := CloseMessage(ms, i);
    if closure.touched == {} || closure.touched * protected != {} {
      return;
    }
    o, seen' := AttemptClosure(env, ms, before, pass, i, closure, seen);
  }

  method AttemptClosure(env: Env, ms: seq<Message>, before: Snapshot, pass: nat, i: nat, closure: Closure,
                        seen: set<(set<nat>, set<string>)>) returns (o: Outcome, seen': set<(set<nat>, set<string>)>)
    requires i < |ms| && closure == MessageClosure(Bones(ms), i) && Droppable(Bones(ms), i)
    requires SeenTurnedDown(env, ms, before, seen)
    ensures o.Refused? ==> SeenTurnedDown(env, ms, before, seen') && DropTurnedDown(env, ms, before, i)
    ensures !o.Refused? ==> DropDecides(env, ms, before, pass, o, i)
  {
    o, seen' := Refused, seen;
    var signature := (closure.touched, closure.callIds);
    if signature in seen {
      return;
    }
    var view := Remove(ms, closure);
    RemovalShortens(ms, i);
    if |view| >= |ms| && closure.removeResults == map[] {
      assert false;
    }
    o := Evaluate(env, before, view, Drop, |closure.touched|, pass);
    if o.Refused? {
      SignatureSeen(env, ms, before, seen, i);
      seen' := seen + {signature};
    }
  }

  method AttemptNext(env: Env, ms: seq<Message>, before: Snapshot, pass: nat, i: nat, protected: set<nat>,
                     seen: set<(set<nat>, set<string>)>, ghost past: Past)
    returns (o: Outcome, seen': set<(set<nat>, set<string>)>, ghost past': Past)
    requires i < |ms| && protected == Protected(Bones(ms)) && SeenTurnedDown(env, ms, before, seen)
    requires PastTurnedDown(env, ms, before, past) && Reaches(past, i)
    ensures o.Refused? ==>
              && SeenTurnedDown(env, ms, before, seen')
              && PastTurnedDown(env, ms, before, past') && Reaches(past', i + 1)
    ensures !o.Refused? ==> exists k :: DropPass(env, ms, before, pass, o, k)
  {
    o, seen' := AttemptDrop(env, ms, before, pass, i, protected, seen);
    past' := After(past, i);
    if !o.Refused? {
      PastIsDrops(env, ms, before, past, i);
      assert DropPass(env, ms, before, pass, o, i);
    }
  }

  /** tryDropOldestReplayClosure. */
  method TryDrop(env: Env, ms: seq<Message>, before: Snapshot, pass: nat) returns (o: Outcome)
    ensures o.Refused? ==> DropsTurnedDown(env, ms, before, |ms|)
    ensures !o.Refused? ==> exists i :: DropPass(env, ms, before, pass, o, i)
  {
    var protected := ProtectedIndexes(ms);
    var seen := {};
    ghost var past := Nothing;
    for i := 0 to |ms|
      invariant PastTurnedDown(env, ms, before, past) && Reaches(past, i)
      invariant SeenTurnedDown(env, ms, before, seen)
    {
      o, seen, past := AttemptNext(env, ms, before, pass, i, protected, seen, past);
      if !o.Refused? {
        return;
      }
    }
    PastIsDrops(env, ms, before, past, |ms|);
    o := Refused;
  }

  ghost predicate SummariesTurnedDown(env: Env, kind: Kind, ms: seq<Message>, before: Snapshot, m: nat) {
    forall i :: 0 <= i < m && i < |ms| && SummaryCandidate(env, kind, ms, i).Some? ==>
                  TurnedDown(env, before, SummaryCandidate(env, kind, ms, i).value)
  }

  ghost predicate SummaryPass(env: Env, kind: Kind, ms: seq<Message>, before: Snapshot, pass: nat, o: Outcome, i: nat) {
    && i < |ms| && SummaryCandidate(env, kind, ms, i).Some?
    && o == Evaluate(env, before, SummaryCandidate(env, kind, ms, i).value, kind, 1, pass)
    && SummariesTurnedDown(env, kind, ms, before, i)
  }

  /** tryDropSemanticSummary and tryReduceDeterministicSummary. */
  method TrySummary(env: Env, kind: Kind, ms: seq<Message>, before: Snapshot, pass: nat) returns (o: Outcome)
    ensures o.Refused? ==> SummariesTurnedDown(env, kind, ms, before, |ms|)
    ensures !o.Refused? ==> exists i :: SummaryPass(env, kind, ms, before, pass, o, i)
  {
    for i := 0 to |ms|
      invariant SummariesTurnedDown(env, kind, ms, before, i)
    {
      var text := Rewritten(env, kind, ms[i]);
      if text.None? {
        continue;
      }
      o := Evaluate(env, before, ms[i := ms[i].(text := text.value)], kind, 1, pass);
      if !o.Refused? {
        assert SummaryPass(env, kind, ms, before, pass, o, i);
        return;
      }
    }
    o := Refused;
  }

  /** One accepted pass of a phase. */
  ghost predicate Passed(env: Env, kind: Kind, ms: seq<Message>, before: Snapshot, pass: nat, o: Outcome) {
    match kind
    case Pointerize => exists i, j, view :: PointerPass(env, ms, before, pass, o, i, j, view)
    case Drop => exists i :: DropPass(env, ms, before, pass, o, i)
    case _ => exists i :: SummaryPass(env, kind, ms, before, pass, o, i)
  }

  /** Nothing this phase can do makes the view smaller. */
  ghost predicate Exhausted(env: Env, kind: Kind, ms: seq<Message>, before: Snapshot) {
    match kind
    case Pointerize => PointersTurnedDown(env, ms, before, |ms|, 0)
    case Drop => DropsTurnedDown(env, ms, before, |ms|)
    case _ => SummariesTurnedDown(env, kind, ms, before, |ms|)
  }

  method Try(env: Env, kind: Kind, ms: seq<Message>, before: Snapshot, pass: nat) returns (o: Outcome)
    ensures o.Refused? ==> Exhausted(env, kind, ms, before)
    ensures !o.Refused? ==> Passed(env, kind, ms, before, pass, o)
  {
    match kind {
      case Pointerize => o := TryPointerize(env, ms, before, pass);
      case Drop => o := TryDrop(env, ms, before, pass);
      case _ => o := TrySummary(env, kind, ms, before, pass);
    }
  }

  /** An accepted pass is an estimated, strictly smaller view. */
  lemma PassShrinks(env: Env, kind: Kind, ms: seq<Message>, before: Snapshot, pass: nat, o: Outcome)
    requires Passed(env, kind, ms, before, pass, o)
    ensures o.Accepted? ==>
              && o.after == Preflight(env, o.view) && (o.after.code == NoCode || o.after.code == Exceeded)
              && o.after.wireBytes < before.wireBytes
              && o.action.pass == pass && o.action.kind == kind
              && o.action.beforeBytes == before.wireBytes && o.action.afterBytes == o.after.wireBytes
    ensures o.Broken? ==> o.after.code == EstimatorUnavailable || o.after.code == EstimateFailed
  {
  }

  /** An accepted pass keeps what every step keeps. */
  lemma PassFits(env: Env, kind: Kind, ms: seq<Message>, before: Snapshot, pass: nat, o: Outcome) returns (kept: seq<nat>)
    requires Passed(env, kind, ms, before, pass, o) && o.Accepted?
    ensures Fitted(env, ms, o.view, kept)
  {
    match kind {
      case Pointerize =>
        var i, j, view :| PointerPass(env, ms, before, pass, o, i, j, view);
        PointerStep(env, ms, i, j);
        kept := Identity(|ms|);
      case Drop =>
        var i :| DropPass(env, ms, before, pass, o, i);
        DropStep(env, ms, i);
        kept := Kept(ms, MessageClosure(Bones(ms), i), 0);
      case _ =>
        var i :| SummaryPass(env, kind, ms, before, pass, o, i);
        SummaryStep(env, kind, ms, i);
        kept := Identity(|ms|);
    }
  }

  // ---------- the loop ----------

  function Rank(kind: Kind): nat {
    match kind
    case Pointerize => 0
    case Drop => 1
    case DropSemantic => 2
    case ReduceSummary => 3
  }

  /** Pass `i + 1` is numbered so, starts at the size the one before reached, and is strictly smaller after. */
  predicate Linked(start: Int, actions: seq<Action>, i: nat)
    requires i < |actions|
  {
    && actions[i].pass == i + 1
    && actions[i].afterBytes < actions[i].beforeBytes
    && actions[i].beforeBytes == if i == 0 then start else actions[i - 1].afterBytes
  }

  /** Consecutive passes from 1, each starting at the size the one before reached and strictly
      smaller after, no phase taken up again. */
  ghost predicate Chain(start: Int, actions: seq<Action>, end: Int) {
    && (forall i :: 0 <= i < |actions| ==> Linked(start, actions, i))
    && (forall i, j :: 0 <= i < j < |actions| ==> Rank(actions[i].kind) <= Rank(actions[j].kind))
    && end == if actions == [] then start else actions[|actions| - 1].afterBytes
  }

  lemma ChainExtends(start: Int, actions: seq<Action>, end: Int, next: Action)
    requires Chain(start, actions, end)
    requires next.pass == |actions| + 1 && next.beforeBytes == end && next.afterBytes < end
    requires forall i :: 0 <= i < |actions| ==> Rank(actions[i].kind) <= Rank(next.kind)
    ensures Chain(start, actions + [next], next.afterBytes)
  {
    var all := actions + [next];
    forall i | 0 <= i < |all|
      ensures Linked(start, all, i)
    {
      assert i < |actions| ==> Linked(start, actions, i) && all[i] == actions[i];
      assert i > 0 ==> all[i - 1] == actions[i - 1];
    }
    forall i, j | 0 <= i < j < |all|
      ensures Rank(all[i].kind) <= Rank(all[j].kind)
    {
      assert all[i] == actions[i];
      assert j < |actions| ==> all[j] == actions[j];
    }
  }

  datatype Fit = Fit(view: seq<Message>, initial: Snapshot, snapshot: Snapshot, actions: seq<Action>)

  datatype Verdict = FitsWindow | EstimatorError | UnfitView(available: Int)

  const PHASES: seq<Kind> := [Pointerize, Drop, DropSemantic, ReduceSummary]

  /** The bookkeeping is up to date with the view. */
  ghost predicate Current(env: Env, fit: Fit) {
    && |fit.actions| <= MAX_PASSES
    && fit.snapshot == Preflight(env, fit.view)
    && (fit.snapshot.code == NoCode || fit.snapshot.code == Exceeded)
    && Chain(fit.initial.wireBytes, fit.actions, fit.snapshot.wireBytes)
  }

  ghost predicate UpTo(fit: Fit, rank: nat) {
    forall i :: 0 <= i < |fit.actions| ==> Rank(fit.actions[i].kind) <= rank
  }

  /** The fit after an accepted pass. */
  function Advance(fit: Fit, o: Outcome): Fit
    requires o.Accepted?
  {
    Fit(o.view, fit.initial, o.after, fit.actions + [o.action])
  }

  lemma AdvanceIsCurrent(env: Env, kind: Kind, fit: Fit, o: Outcome)
    requires Current(env, fit) && UpTo(fit, Rank(kind)) && |fit.actions| < MAX_PASSES
    requires o.Accepted? && Passed(env, kind, fit.view, fit.snapshot, |fit.actions| + 1, o)
    ensures Current(env, Advance(fit, o)) && UpTo(Advance(fit, o), Rank(kind))
  {
    PassShrinks(env, kind, fit.view, fit.snapshot, |fit.actions| + 1, o);
    ChainExtends(fit.initial.wireBytes, fit.actions, fit.snapshot.wireBytes, o.action);
  }

  // ---------- what stands ----------

  /** Message `i` stands in the later view and is shielded there: only the text of a summary and the outputs
      of a tool message may be shorter, and each of its results is still there, in place. */
  ghost predicate Stands(ms: seq<Message>, i: nat, out: seq<Message>)
    requires i < |ms|
  {
    exists k :: 0 <= k < |out| && Shielded(out, k) && StandsAt(ms[i], out[k])
              && (LatestInstructionAt(ms, i) ==> LatestInstructionAt(out, k))
  }

  predicate StandsAt(m: Message, later: Message) {
    && later == m.(text := later.text, results := later.results)
    && (later.text == m.text || m.source == CompactionSummary || m.marked)
    && (later.results == m.results || m.role == Tool)
    && |later.results| == |m.results|
    && forall j :: 0 <= j < |m.results| ==> later.results[j].callId.key == m.results[j].callId.key
  }

  lemma {:induction false} ContentStands(ms: seq<Message>, out: seq<Message>, kept: seq<nat>, k: nat)
    requires Embeds(Bones(ms), Bones(out), kept, Protected(Bones(ms))) && Content(ms, out, kept)
    requires k < |kept| && kept[k] in Protected(Bones(ms))
    ensures k < |out| && kept[k] < |ms| && StandsAt(ms[kept[k]], out[k])
  {
    assert Bones(out)[k] == Bones(ms)[kept[k]];
    assert Answered(out[k].results) == Answered(ms[kept[k]].results);
    assert SameContent(out[k], ms[kept[k]]);
  }

  lemma {:induction false} ShieldMoves(ms: seq<Message>, out: seq<Message>, kept: seq<nat>, k: nat)
    requires Embeds(Bones(ms), Bones(out), kept, Protected(Bones(ms)))
    requires k < |kept| && kept[k] in Protected(Bones(ms))
    ensures Shielded(out, k)
  {
    ProtectedMoves(Bones(ms), Bones(out), kept);
    ProtectedMeaning(out, k);
  }

  lemma {:induction false} ShieldedStands(env: Env, ms: seq<Message>, out: seq<Message>, kept: seq<nat>, i: nat)
    requires Fitted(env, ms, out, kept) && i < |ms| && Shielded(ms, i)
    ensures Stands(ms, i, out)
  {
    ProtectedMeaning(ms, i);
    assert i in kept;
    var k :| 0 <= k < |kept| && kept[k] == i;
    ContentStands(ms, out, kept, k);
    ShieldMoves(ms, out, kept, k);
    if LatestInstructionAt(ms, i) {
      InstructionMoves(ms, out, kept, k);
    }
  }

  lemma {:induction false} InstructionMoves(ms: seq<Message>, out: seq<Message>, kept: seq<nat>, k: nat)
    requires Embeds(Bones(ms), Bones(out), kept, Protected(Bones(ms))) && k < |kept| && LatestInstructionAt(ms, kept[k])
    ensures k < |out| && LatestInstructionAt(out, k)
  {
    InstructionIsLast(ms, kept[k]);
    LastIndexMoves(Bones(ms), Bones(out), kept, Protected(Bones(ms)), IsInstruction);
    InstructionIsLast(out, k);
  }

  /** Every message the fit may not drop stands in the later view. */
  lemma {:induction false} ShieldedStand(env: Env, ms: seq<Message>, out: seq<Message>, kept: seq<nat>)
    requires Fitted(env, ms, out, kept)
    ensures forall i :: 0 <= i < |ms| && Shielded(ms, i) ==> Stands(ms, i, out)
  {
    forall i | 0 <= i < |ms| && Shielded(ms, i)
      ensures Stands(ms, i, out)
    {
      ShieldedStands(env, ms, out, kept, i);
    }
  }

  /** After any run of passes the latest instruction of the view still is its latest instruction, word for
      word unless its own text opens with the marker of a summary. */
  lemma InstructionStands(env: Env, run: Run, i: nat)
    requires ValidRun(env, run) && i < |Base(run)| && LatestInstructionAt(Base(run), i)
    ensures exists k :: 0 <= k < |View(run)| && LatestInstructionAt(View(run), k) &&
              View(run)[k] == Base(run)[i].(text := View(run)[k].text) && (!Base(run)[i].marked ==> View(run)[k] == Base(run)[i])
  {
    var kept := RunFits(env, run);
    ShieldedStands(env, Base(run), View(run), kept, i);
  }

  // ---------- the trace of a fit ----------

  /** A view and the accepted passes that led to it. */
  datatype Run = Start(base: seq<Message>) | Then(before: Run, kind: Kind, snapshot: Snapshot, pass: nat, outcome: Outcome)

  function Base(run: Run): seq<Message> {
    match run
    case Start(base) => base
    case Then(before, _, _, _, _) => Base(before)
  }

  function View(run: Run): seq<Message> {
    match run
    case Start(base) => base
    case Then(before, _, _, _, outcome) => if outcome.Accepted? then outcome.view else View(before)
  }

  ghost predicate ValidRun(env: Env, run: Run) {
    match run
    case Start(_) => true
    case Then(before, kind, snapshot, pass, outcome) =>
      ValidRun(env, before) && outcome.Accepted? && Passed(env, kind, View(before), snapshot, pass, outcome)
  }

  /** A run keeps what every step keeps. */
  lemma {:induction false} RunFits(env: Env, run: Run) returns (kept: seq<nat>)
    requires ValidRun(env, run)
    ensures Fitted(env, Base(run), View(run), kept)
  {
    match run {
      case Start(base) =>
        FittedUnchanged(env, base);
        kept := Identity(|base|);
      case Then(before, kind, snapshot, pass, outcome) =>
        var outer := RunFits(env, before);
        var inner := PassFits(env, kind, View(before), snapshot, pass, outcome);
        FittedCompose(env, Base(before), View(before), outcome.view, outer, inner);
        kept := Through(outer, inner);
    }
  }

  /** No result of the view tells its reader to replay a call: so is every view before a fit. */
  predicate NothingReplayed(ms: seq<Message>) {
    forall k :: 0 <= k < |ms| ==> forall r :: r in ms[k].results ==> r.replays.None?
  }

  /** After any run of passes, every pointer that the run left names a call of the final view, the only one
      there that its result answers; the call is read-only and of the same tool, and the result no error. */
  lemma PointersNeverDangle(env: Env, run: Run, k: nat, r: ToolResult)
    requires ValidRun(env, run) && NothingReplayed(Base(run))
    requires k < |View(run)| && r in View(run)[k].results && r.replays.Some?
    ensures View(run)[k].role == Tool && !r.isError
    ensures exists at: At ::
              && Names(View(run), at, r.callId.key) && (forall other: At :: Names(View(run), other, r.callId.key) ==> other == at)
              && HasAlias(CallAt(View(run), at), r.replays.value)
              && CallAt(View(run), at).name == r.name && env.readOnly(CallAt(View(run), at))
  {
    RunKeepsPointers(env, run);
    PointerTarget(env, View(run), k, r);
  }

  lemma RunKeepsPointers(env: Env, run: Run)
    requires ValidRun(env, run) && PointersOk(env, Base(run))
    ensures PointersOk(env, View(run))
  {
    var kept := RunFits(env, run);
  }

  lemma PointerTarget(env: Env, ms: seq<Message>, k: nat, r: ToolResult)
    requires PointersOk(env, ms) && k < |ms| && r in ms[k].results && r.replays.Some?
    ensures ms[k].role == Tool && !r.isError
    ensures exists at: At ::
              && Names(ms, at, r.callId.key) && (forall other: At :: Names(ms, other, r.callId.key) ==> other == at)
              && HasAlias(CallAt(ms, at), r.replays.value) && CallAt(ms, at).name == r.name && env.readOnly(CallAt(ms, at))
  {
    assert MessageOk(env, ms, ms[k]) && PointerOk(env, ms, r);
    var at: At :| Resolves(env, ms, at, r);
    assert Names(ms, at, r.callId.key);
  }

  /** Nothing is left for this phase to do. */
  ghost predicate Settled(env: Env, kind: Kind, fit: Fit) {
    fit.snapshot.fit || |fit.actions| >= MAX_PASSES || Exhausted(env, kind, fit.view, fit.snapshot)
  }

  datatype Status = Advanced | Ended | EstimatorBroke

  /** One pass of a phase. */
  method RunPass(env: Env, kind: Kind, fit: Fit, ghost run: Run) returns (status: Status, next: Fit, ghost run': Run)
    requires Current(env, fit) && UpTo(fit, Rank(kind)) && |fit.actions| < MAX_PASSES
    requires ValidRun(env, run) && View(run) == fit.view
    ensures next.initial == fit.initial && next.view == View(run')
    ensures ValidRun(env, run') && Base(run') == Base(run)
    ensures status.Advanced? ==> Current(env, next) && UpTo(next, Rank(kind)) && |next.actions| == |fit.actions| + 1
    ensures status.Ended? ==> next == fit && Exhausted(env, kind, fit.view, fit.snapshot)
    ensures status.EstimatorBroke? ==>
              && next == fit.(snapshot := next.snapshot)
              && (next.snapshot.code == EstimatorUnavailable || next.snapshot.code == EstimateFailed)
  {
    var o := Try(env, kind, fit.view, fit.snapshot, |fit.actions| + 1);
    match o {
      case Refused => status, next, run' := Ended, fit, run;
      case Broken(after) =>
        PassShrinks(env, kind, fit.view, fit.snapshot, |fit.actions| + 1, o);
        status, next, run' := EstimatorBroke, fit.(snapshot := after), run;
      case Accepted(_, _, _) =>
        AdvanceIsCurrent(env, kind, fit, o);
        status, next, run' := Advanced, Advance(fit, o), Then(run, kind, fit.snapshot, |fit.actions| + 1, o);
    }
  }

  /** One phase of fitProviderRequestToBudget: passes until the view fits, the passes run out, the
      phase has nothing left, or the estimator fails. */
  method RunPhase(env: Env, kind: Kind, fit0: Fit, ghost run0: Run) returns (fit: Fit, broken: bool, ghost run: Run)
    requires Current(env, fit0) && UpTo(fit0, Rank(kind))
    requires ValidRun(env, run0) && View(run0) == fit0.view
    ensures ValidRun(env, run) && Base(run) == Base(run0) && fit.view == View(run)
    ensures fit.initial == fit0.initial && UpTo(fit, Rank(kind)) && |fit.actions| <= MAX_PASSES
    ensures broken ==> fit.snapshot.code == EstimatorUnavailable || fit.snapshot.code == EstimateFailed
    ensures exists size :: Chain(fit.initial.wireBytes, fit.actions, size)
    ensures !broken ==> Current(env, fit) && Settled(env, kind, fit)
  {
    fit, broken, run := fit0, false, run0;
    while |fit.actions| < MAX_PASSES && !fit.snapshot.fit
      invariant Current(env, fit) && UpTo(fit, Rank(kind))
      invariant ValidRun(env, run) && Base(run) == Base(run0) && fit.view == View(run)
      invariant fit.initial == fit0.initial
      decreases MAX_PASSES - |fit.actions|
    {
      var status;
      status, fit, run := RunPass(env, kind, fit, run);
      if status != Advanced {
        broken := status == EstimatorBroke;
        return;
      }
    }
  }

  /** The phases of fitProviderRequestToBudget, one after the other. */
  method RunPhases(env: Env, fit0: Fit) returns (fit: Fit, broken: bool, ghost run: Run)
    requires Current(env, fit0) && fit0.actions == []
    ensures ValidRun(env, run) && Base(run) == fit0.view && fit.view == View(run)
    ensures fit.initial == fit0.initial && |fit.actions| <= MAX_PASSES
    ensures broken ==> fit.snapshot.code == EstimatorUnavailable || fit.snapshot.code == EstimateFailed
    ensures broken ==> exists size :: Chain(fit.initial.wireBytes, fit.actions, size)
    ensures !broken ==> Current(env, fit) && Settled(env, ReduceSummary, fit)
  {
    fit, broken, run := fit0, false, Start(fit0.view);
    var phase := 0;
    while phase < |PHASES|
      invariant 0 <= phase <= 4 && !broken
      invariant fit.initial == fit0.initial && Current(env, fit)
      invariant ValidRun(env, run) && Base(run) == fit0.view && fit.view == View(run)
      invariant if phase == 0 then fit.actions == [] else UpTo(fit, phase - 1)
      invariant phase == 4 ==> Settled(env, ReduceSummary, fit)
    {
      assert Rank(PHASES[phase]) == phase;
      fit, broken, run := RunPhase(env, PHASES[phase], fit, run);
      if broken || fit.snapshot.fit || |fit.actions| >= MAX_PASSES {
        return;
      }
      phase := phase + 1;
    }
  }

  /** What the verdict says of the final view. Success means exactly that the view fits its window;
      giving up means that 256 passes were made or that no summary can be reduced further. */
  ghost predicate Reported(env: Env, fit: Fit, verdict: Verdict) {
    match verdict
    case FitsWindow => Current(env, fit) && fit.snapshot.fit && Meets(env, fit.view)
    case UnfitView(available) =>
      var last := fit.(snapshot := Preflight(env, fit.view));
      && fit.snapshot == last.snapshot.(fit := false, code := Unfit)
      && Current(env, last) && !last.snapshot.fit && !Meets(env, fit.view)
      && Settled(env, ReduceSummary, last)
      && available == SaturatingSubtract(Window(env), Saturated([Reserve(env), Safety(env)], 0, 0))
    case EstimatorError =>
      && (fit.snapshot.code == EstimatorUnavailable || fit.snapshot.code == EstimateFailed)
      && |fit.actions| <= MAX_PASSES
      && exists size :: Chain(fit.initial.wireBytes, fit.actions, size)
  }

  /** In exact arithmetic the view fits its window, which is below the largest integer, or the
      window is the largest integer. */
  ghost predicate Meets(env: Env, view: seq<Message>) {
    && Sound(env.estimate(view))
    && (Window(env) < MAX_INT ==> Required(env, env.estimate(view).wireBytes) <= Window(env))
  }

  /**
    fitProviderRequestToBudget. The view it returns keeps, of the view it was given, every protected
    message, the issuers of every retained result, with unshared identities the results of every
    retained call, and the target of every pointer.
  */
  method FitRequest(env: Env, ms: seq<Message>) returns (fit: Fit, verdict: Verdict, ghost kept: seq<nat>)
    ensures Fitted(env, ms, fit.view, kept)
    ensures forall i :: 0 <= i < |ms| && Shielded(ms, i) ==> Stands(ms, i, fit.view)
    ensures fit.initial == Preflight(env, ms) && Reported(env, fit, verdict)
    ensures Preflight(env, ms).fit ==> fit.view == ms && fit.actions == []
  {
    ghost var run;
    fit, verdict, run := FitLoop(env, ms);
    kept := RunFits(env, run);
    ShieldedStand(env, ms, fit.view, kept);
  }

  method FitLoop(env: Env, ms: seq<Message>) returns (fit: Fit, verdict: Verdict, ghost run: Run)
    ensures ValidRun(env, run) && Base(run) == ms && fit.view == View(run)
    ensures fit.initial == Preflight(env, ms) && Reported(env, fit, verdict)
    ensures Preflight(env, ms).fit ==> fit.view == ms && fit.actions == []
  {
    var initial := Preflight(env, ms);
    fit, run := Fit(ms, initial, initial, []), Start(ms);
    assert Chain(initial.wireBytes, [], initial.wireBytes);
    if initial.code != NoCode && initial.code != Exceeded {
      return fit, EstimatorError, run;
    }
    var broken := false;
    if !initial.fit {
      fit, broken, run := RunPhases(env, fit);
    }
    if broken {
      return fit, EstimatorError, run;
    }
    FitMeaning(env, fit.view);
    if fit.snapshot.fit {
      return fit, FitsWindow, run;
    }
    var reserves := SaturatingAdd([fit.snapshot.reserve, fit.snapshot.safety]);
    verdict := UnfitView(SaturatingSubtract(fit.snapshot.window, reserves));
    fit := fit.(snapshot := fit.snapshot.(fit := false, code := Unfit));
  }
}
