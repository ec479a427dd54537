/**
  The messages a hard fit may never drop: the latest external instruction, the latest steer,
  system messages, compaction summaries and the newest tool batch
  (internal/runtime/request_budget.go:541-588, internal/runtime/prompt.go:1086-1098).
*/
module Protection {
  import opened ReplayClosure
  import Text

  predicate IsInstruction(b: Bone) {
    b.role == User && b.source != HarnessReminder && b.source != CompactionSummary
  }

  predicate IsSteer(b: Bone) {
    b.role == User && b.source == Steer
  }

  predicate IsAnswer(b: Bone) {
    b.role == Tool && b.answered != []
  }

  /** The last of the first `n` messages that satisfies `p`. */
  function LastIndex(bs: seq<Bone>, p: Bone -> bool, n: nat): (r: Option<nat>)
    requires n <= |bs|
    ensures r.Some? ==> r.value < n && p(bs[r.value])
  {
    if n == 0 then None else if p(bs[n - 1]) then Some(n - 1) else LastIndex(bs, p, n - 1)
  }

  function Singleton(o: Option<nat>): set<nat> {
    if o.Some? then {o.value} else {}
  }

  /** The tool message `t` and every message the batch of its last result touches. */
  function BatchOf(bs: seq<Bone>, t: nat): set<nat>
    requires t < |bs| && IsAnswer(bs[t])
  {
    var id := bs[t].answered[|bs[t].answered| - 1];
    {t} + (if id != "" && NearestIssuer(bs, t, id).Some?
           then AssistantClosure(bs, NearestIssuer(bs, t, id).value).touched else {})
  }

  function NewestBatch(bs: seq<Bone>): set<nat> {
    match LastIndex(bs, IsAnswer, |bs|)
    case None => {}
    case Some(t) => BatchOf(bs, t)
  }

  /** The system messages and compaction summaries among the first `n`. */
  function Standing(bs: seq<Bone>, n: nat): set<nat>
    requires n <= |bs|
  {
    set i | 0 <= i < n && (bs[i].role == System || bs[i].summary)
  }

  /** protectedRequestBudgetMessageIndexes. */
  function Protected(bs: seq<Bone>): set<nat> {
    Singleton(LastIndex(bs, IsInstruction, |bs|)) + Singleton(LastIndex(bs, IsSteer, |bs|))
    + Standing(bs, |bs|) + NewestBatch(bs)
  }

  lemma {:induction false} LastIndexMeaning(bs: seq<Bone>, p: Bone -> bool, n: nat)
    requires n <= |bs|
    ensures LastIndex(bs, p, n).Some? ==> forall i :: LastIndex(bs, p, n).value < i < n ==> !p(bs[i])
    ensures LastIndex(bs, p, n).None? ==> forall i :: 0 <= i < n ==> !p(bs[i])
  {
    if n > 0 && !p(bs[n - 1]) {
      LastIndexMeaning(bs, p, n - 1);
    }
  }

  // ---------- what is protected, message by message ----------

  /** The last user message that is neither a reminder nor a summary. */
  predicate LatestInstructionAt(ms: seq<Message>, i: nat) {
    && i < |ms| && ms[i].role == User && ms[i].source != HarnessReminder && ms[i].source != CompactionSummary
    && forall k :: i < k < |ms| && ms[k].role == User ==> ms[k].source == HarnessReminder || ms[k].source == CompactionSummary
  }

  predicate LatestSteerAt(ms: seq<Message>, i: nat) {
    && i < |ms| && ms[i].role == User && ms[i].source == Steer
    && forall k :: i < k < |ms| && ms[k].role == User ==> ms[k].source != Steer
  }

  predicate LatestResultsAt(ms: seq<Message>, t: nat) {
    && t < |ms| && ms[t].role == Tool && ms[t].results != []
    && forall k :: t < k < |ms| && ms[k].role == Tool ==> ms[k].results == []
  }

  /** The nearest assistant before `t` that carries a call with the identity of the last result of `t`. */
  predicate LastIssuerAt(ms: seq<Message>, t: nat, a: nat)
    requires t < |ms| && ms[t].results != []
  {
    var id := ms[t].results[|ms[t].results| - 1].callId.key;
    && a < t && ms[a].role == Assistant && CarriesCall(ms[a], id)
    && forall p :: a < p < t && ms[p].role == Assistant ==> !CarriesCall(ms[p], id)
  }

  /** A tool message with a result for one of the assistant's calls. */
  predicate AnswersOne(m: Message, assistant: Message) {
    m.role == Tool && exists j :: 0 <= j < |m.results| && CarriesCall(assistant, m.results[j].callId.key)
  }

  /** The assistant that tool message `t` answers last, and the messages that answer that one. */
  function AnsweredBatch(ms: seq<Message>, t: nat): set<nat>
    requires t < |ms| && ms[t].results != []
  {
    set i | 0 <= i < |ms| && exists a :: 0 <= a < t && LastIssuerAt(ms, t, a) && (i == a || AnswersOne(ms[i], ms[a]))
  }

  /** The newest tool message with results, and its batch. */
  predicate InNewestBatch(ms: seq<Message>, i: nat) {
    exists t :: 0 <= t < |ms| && LatestResultsAt(ms, t) && (i == t || i in AnsweredBatch(ms, t))
  }

  /** What a hard fit may never drop. */
  predicate Shielded(ms: seq<Message>, i: nat) {
    && i < |ms|
    && (|| LatestInstructionAt(ms, i) || LatestSteerAt(ms, i)
        || ms[i].role == System || ms[i].source == CompactionSummary || ms[i].marked
        || InNewestBatch(ms, i))
  }

  lemma {:induction false} InstructionIsLast(ms: seq<Message>, i: nat)
    ensures LatestInstructionAt(ms, i) <==> LastIndex(Bones(ms), IsInstruction, |ms|) == Some(i)
  {
    LastIndexMeaning(Bones(ms), IsInstruction, |ms|);
    assert forall k :: 0 <= k < |ms| ==>
      (IsInstruction(Bones(ms)[k]) <==> ms[k].role == User && ms[k].source != HarnessReminder && ms[k].source != CompactionSummary);
  }

  lemma {:induction false} SteerIsLast(ms: seq<Message>, i: nat)
    ensures LatestSteerAt(ms, i) <==> LastIndex(Bones(ms), IsSteer, |ms|) == Some(i)
  {
    LastIndexMeaning(Bones(ms), IsSteer, |ms|);
    assert forall k :: 0 <= k < |ms| ==> (IsSteer(Bones(ms)[k]) <==> ms[k].role == User && ms[k].source == Steer);
  }

  lemma {:induction false} ResultsAreLast(ms: seq<Message>, t: nat)
    ensures LatestResultsAt(ms, t) <==> LastIndex(Bones(ms), IsAnswer, |ms|) == Some(t)
  {
    LastIndexMeaning(Bones(ms), IsAnswer, |ms|);
    assert forall k :: 0 <= k < |ms| ==> |Bones(ms)[k].answered| == |ms[k].results|;
    assert forall k :: 0 <= k < |ms| ==> (IsAnswer(Bones(ms)[k]) <==> ms[k].role == Tool && ms[k].results != []);
  }

  lemma {:induction false} IssuerIsNearest(ms: seq<Message>, t: nat, a: nat)
    requires t < |ms| && ms[t].results != []
    ensures
      var id := ms[t].results[|ms[t].results| - 1].callId.key;
      LastIssuerAt(ms, t, a) <==> id != "" && NearestIssuer(Bones(ms), t, id) == Some(a)
  {
    var id := ms[t].results[|ms[t].results| - 1].callId.key;
    NearestIssuerMeaning(Bones(ms), t, id);
    forall p | 0 <= p < |ms|
      ensures Issues(Bones(ms)[p], id) <==> ms[p].role == Assistant && CarriesCall(ms[p], id)
    {
      IssuedMeaning(ms[p], id);
    }
  }

  lemma {:induction false} TouchedMeaning(ms: seq<Message>, a: nat, i: nat)
    requires a < |ms| && ms[a].role == Assistant && i < |ms|
    ensures i in AssistantClosure(Bones(ms), a).touched <==> i == a || AnswersOne(ms[i], ms[a])
  {
    var b, ids := Bones(ms)[i], Issued(ms[a]);
    forall j | 0 <= j < |b.answered|
      ensures b.answered[j] in ids <==> CarriesCall(ms[a], ms[i].results[j].callId.key)
    {
      IssuedMeaning(ms[a], b.answered[j]);
    }
    if AnswersOne(ms[i], ms[a]) {
      var j :| 0 <= j < |ms[i].results| && CarriesCall(ms[a], ms[i].results[j].callId.key);
      MatchedHas(b.answered, ids, j);
    }
    if Hit(b, ids) {
      var x :| x in Matched(b.answered, ids);
      var j :| 0 <= j < |b.answered| && b.answered[j] in ids && b.answered[j] == x;
    }
  }

  lemma {:induction false} IssuedBatchMeaning(ms: seq<Message>, t: nat, a: nat, i: nat)
    requires t < |ms| && ms[t].results != [] && LastIssuerAt(ms, t, a) && i < |ms|
    ensures i in AnsweredBatch(ms, t) <==> i in AssistantClosure(Bones(ms), a).touched
  {
    TouchedMeaning(ms, a, i);
    forall other | 0 <= other < t && LastIssuerAt(ms, t, other)
      ensures other == a
    {
    }
  }

  lemma {:induction false} UnissuedBatchMeaning(ms: seq<Message>, t: nat, i: nat)
    requires t < |ms| && ms[t].results != []
    requires
      var id := ms[t].results[|ms[t].results| - 1].callId.key;
      id == "" || NearestIssuer(Bones(ms), t, id).None?
    ensures i !in AnsweredBatch(ms, t)
  {
    forall a | 0 <= a < t
      ensures !LastIssuerAt(ms, t, a)
    {
      IssuerIsNearest(ms, t, a);
    }
  }

  /** The batch of `t` in its two cases. */
  lemma BatchParts(bs: seq<Bone>, t: nat, id: string)
    requires t < |bs| && IsAnswer(bs[t]) && id == bs[t].answered[|bs[t].answered| - 1]
    ensures id == "" || NearestIssuer(bs, t, id).None? ==> BatchOf(bs, t) == {t}
    ensures id != "" && NearestIssuer(bs, t, id).Some? ==>
              BatchOf(bs, t) == {t} + AssistantClosure(bs, NearestIssuer(bs, t, id).value).touched
  {
  }

  lemma {:induction false} IssuedBatchIs(ms: seq<Message>, t: nat, a: nat, i: nat, touched: set<nat>)
    requires t < |ms| && ms[t].results != [] && LastIssuerAt(ms, t, a) && i < |ms|
    requires touched == AssistantClosure(Bones(ms), a).touched
    ensures i in {t} + touched <==> i == t || i in AnsweredBatch(ms, t)
  {
    IssuedBatchMeaning(ms, t, a, i);
  }

  lemma {:induction false} BatchMeaning(ms: seq<Message>, t: nat, i: nat)
    requires t < |ms| && IsAnswer(Bones(ms)[t]) && i < |ms| && ms[t].results != []
    ensures i in BatchOf(Bones(ms), t) <==> i == t || i in AnsweredBatch(ms, t)
  {
    var id := Bones(ms)[t].answered[|ms[t].results| - 1];
    BatchParts(Bones(ms), t, id);
    if id != "" && NearestIssuer(Bones(ms), t, id).Some? {
      var a := NearestIssuer(Bones(ms), t, id).value;
      IssuerIsNearest(ms, t, a);
      IssuedBatchIs(ms, t, a, i, AssistantClosure(Bones(ms), a).touched);
    } else {
      UnissuedBatchMeaning(ms, t, i);
    }
  }

  lemma {:induction false} NewestMeaning(ms: seq<Message>, i: nat)
    requires i < |ms|
    ensures i in NewestBatch(Bones(ms)) <==> InNewestBatch(ms, i)
  {
    forall t | 0 <= t < |ms|
      ensures LatestResultsAt(ms, t) <==> LastIndex(Bones(ms), IsAnswer, |ms|) == Some(t)
    {
      ResultsAreLast(ms, t);
    }
    match LastIndex(Bones(ms), IsAnswer, |ms|) {
      case None =>
      case Some(t) => BatchMeaning(ms, t, i);
    }
  }

  /** What is protected, message by message: the latest instruction, the latest steer, system messages and
      summaries, and the newest tool message with the assistant it answers last and all its answers. */
  lemma {:induction false} ProtectedMeaning(ms: seq<Message>, i: nat)
    requires i < |ms|
    ensures i in Protected(Bones(ms)) <==> Shielded(ms, i)
  {
    InstructionIsLast(ms, i);
    SteerIsLast(ms, i);
    NewestMeaning(ms, i);
  }

  // ---------- a removal seen on bones ----------

  /** The same message, possibly with fewer answers. */
  predicate Shrunk(small: Bone, b: Bone) {
    && small == b.(answered := small.answered)
    && (forall x :: x in small.answered ==> x in b.answered)
    && (b.role != Tool ==> small == b)
  }

  /** `small` keeps the messages at `kept` in order, and those in `fixed` unchanged. */
  ghost predicate Embeds(bs: seq<Bone>, small: seq<Bone>, kept: seq<nat>, fixed: set<nat>) {
    && |kept| == |small|
    && (forall k :: 0 <= k < |kept| ==> kept[k] < |bs| && Shrunk(small[k], bs[kept[k]]))
    && (forall k, l :: 0 <= k < l < |kept| ==> kept[k] < kept[l])
    && (forall i :: i in fixed ==> i in kept)
    && (forall k :: 0 <= k < |kept| && kept[k] in fixed ==> small[k] == bs[kept[k]])
  }

  lemma {:induction false} LastIndexMoves(bs: seq<Bone>, small: seq<Bone>, kept: seq<nat>, fixed: set<nat>, p: Bone -> bool)
    requires Embeds(bs, small, kept, fixed)
    requires forall a, b :: Shrunk(a, b) && p(a) ==> p(b)
    requires Singleton(LastIndex(bs, p, |bs|)) <= fixed
    ensures forall k :: 0 <= k < |kept| ==>
              (LastIndex(small, p, |small|) == Some(k) <==> LastIndex(bs, p, |bs|) == Some(kept[k]))
    ensures LastIndex(small, p, |small|).Some? <==> LastIndex(bs, p, |bs|).Some?
  {
    LastIndexMeaning(bs, p, |bs|);
    LastIndexMeaning(small, p, |small|);
    match LastIndex(bs, p, |bs|) {
      case None =>
        assert forall k :: 0 <= k < |small| ==> !p(small[k]);
      case Some(t) =>
        assert t in Singleton(LastIndex(bs, p, |bs|));
        var at :| 0 <= at < |kept| && kept[at] == t;
        assert p(small[at]);
        var s := LastIndex(small, p, |small|).value;
        assert p(bs[kept[s]]);
        assert s == at;
    }
  }

  lemma {:induction false} NearestIssuerMoves(bs: seq<Bone>, small: seq<Bone>, kept: seq<nat>, fixed: set<nat>, k: nat, id: string)
    requires Embeds(bs, small, kept, fixed) && k < |kept|
    requires Singleton(NearestIssuer(bs, kept[k], id)) <= fixed
    ensures NearestIssuer(small, k, id).Some? <==> NearestIssuer(bs, kept[k], id).Some?
    ensures NearestIssuer(small, k, id).Some? ==>
              var a := NearestIssuer(small, k, id).value;
              a < k && small[a].role == Assistant && kept[a] == NearestIssuer(bs, kept[k], id).value
  {
    NearestIssuerMeaning(bs, kept[k], id);
    NearestIssuerMeaning(small, k, id);
    match NearestIssuer(bs, kept[k], id) {
      case None =>
        assert forall l :: 0 <= l < k ==> !Issues(small[l], id);
      case Some(a) =>
        assert a in Singleton(NearestIssuer(bs, kept[k], id));
        var at :| 0 <= at < |kept| && kept[at] == a;
        assert at < k;
        assert Issues(small[at], id);
        var s := NearestIssuer(small, k, id).value;
        assert s == at;
    }
  }

  lemma {:induction false} TouchedMoves(bs: seq<Bone>, small: seq<Bone>, kept: seq<nat>, fixed: set<nat>, a: nat)
    requires Embeds(bs, small, kept, fixed) && a < |small| && small[a].role == Assistant
    requires bs[kept[a]].role == Assistant
    requires AssistantClosure(bs, kept[a]).touched <= fixed
    ensures forall k :: 0 <= k < |kept| ==>
              (k in AssistantClosure(small, a).touched <==> kept[k] in AssistantClosure(bs, kept[a]).touched)
  {
    var ids := bs[kept[a]].issued;
    assert small[a].issued == ids;
    forall k | 0 <= k < |kept|
      ensures k in AssistantClosure(small, a).touched <==> kept[k] in AssistantClosure(bs, kept[a]).touched
    {
      if Hit(bs[kept[k]], ids) {
        assert kept[k] in AssistantClosure(bs, kept[a]).touched;
      }
      if Hit(small[k], ids) {
        var x :| x in Matched(small[k].answered, ids);
        assert x in bs[kept[k]].answered;
        var j :| 0 <= j < |bs[kept[k]].answered| && bs[kept[k]].answered[j] == x;
        MatchedHas(bs[kept[k]].answered, ids, j);
      }
    }
  }

  lemma {:induction false} BatchMoves(bs: seq<Bone>, small: seq<Bone>, kept: seq<nat>, fixed: set<nat>, at: nat)
    requires Embeds(bs, small, kept, fixed) && at < |small| && IsAnswer(bs[kept[at]])
    requires BatchOf(bs, kept[at]) <= fixed
    ensures IsAnswer(small[at])
    ensures forall k :: 0 <= k < |kept| ==> (k in BatchOf(small, at) <==> kept[k] in BatchOf(bs, kept[at]))
  {
    var t := kept[at];
    assert t in BatchOf(bs, t);
    assert small[at] == bs[t];
    var id := bs[t].answered[|bs[t].answered| - 1];
    if id != "" && NearestIssuer(bs, t, id).Some? {
      IssuerBatchMoves(bs, small, kept, fixed, at, id);
    } else if id != "" {
      NearestIssuerMoves(bs, small, kept, fixed, at, id);
    }
  }

  lemma {:induction false} IssuerBatchMoves(bs: seq<Bone>, small: seq<Bone>, kept: seq<nat>, fixed: set<nat>, at: nat, id: string)
    requires Embeds(bs, small, kept, fixed) && at < |small| && NearestIssuer(bs, kept[at], id).Some?
    requires AssistantClosure(bs, NearestIssuer(bs, kept[at], id).value).touched <= fixed
    ensures NearestIssuer(small, at, id).Some? && small[NearestIssuer(small, at, id).value].role == Assistant
    ensures
      var a, b := NearestIssuer(small, at, id).value, NearestIssuer(bs, kept[at], id).value;
      forall k :: 0 <= k < |kept| ==> (k in AssistantClosure(small, a).touched <==> kept[k] in AssistantClosure(bs, b).touched)
  {
    var b := NearestIssuer(bs, kept[at], id).value;
    assert b in AssistantClosure(bs, b).touched;
    NearestIssuerMoves(bs, small, kept, fixed, at, id);
    TouchedMoves(bs, small, kept, fixed, NearestIssuer(small, at, id).value);
  }

  lemma {:induction false} NewestBatchMoves(bs: seq<Bone>, small: seq<Bone>, kept: seq<nat>, fixed: set<nat>)
    requires Embeds(bs, small, kept, fixed) && NewestBatch(bs) <= fixed
    ensures forall k :: 0 <= k < |kept| ==> (k in NewestBatch(small) <==> kept[k] in NewestBatch(bs))
  {
    forall a, b | Shrunk(a, b) && IsAnswer(a)
      ensures IsAnswer(b)
    {
      assert a.answered[0] in b.answered;
    }
    assert forall t :: t in Singleton(LastIndex(bs, IsAnswer, |bs|)) ==> t in NewestBatch(bs);
    LastIndexMoves(bs, small, kept, fixed, IsAnswer);
    if LastIndex(small, IsAnswer, |small|).Some? {
      BatchMoves(bs, small, kept, fixed, LastIndex(small, IsAnswer, |small|).value);
    }
  }

  lemma ProtectedParts(bs: seq<Bone>)
    ensures Singleton(LastIndex(bs, IsInstruction, |bs|)) <= Protected(bs)
    ensures Singleton(LastIndex(bs, IsSteer, |bs|)) <= Protected(bs)
    ensures Standing(bs, |bs|) <= Protected(bs) && NewestBatch(bs) <= Protected(bs)
  {
  }

  lemma {:induction false} SingletonMoves(bs: seq<Bone>, small: seq<Bone>, kept: seq<nat>, fixed: set<nat>, p: Bone -> bool, k: nat)
    requires Embeds(bs, small, kept, fixed) && k < |kept|
    requires forall a, b :: Shrunk(a, b) && p(a) ==> p(b)
    requires Singleton(LastIndex(bs, p, |bs|)) <= fixed
    ensures k in Singleton(LastIndex(small, p, |small|)) <==> kept[k] in Singleton(LastIndex(bs, p, |bs|))
  {
    LastIndexMoves(bs, small, kept, fixed, p);
  }

  lemma StandingMoves(bs: seq<Bone>, small: seq<Bone>, kept: seq<nat>, fixed: set<nat>, k: nat)
    requires Embeds(bs, small, kept, fixed) && k < |kept|
    ensures k in Standing(small, |small|) <==> kept[k] in Standing(bs, |bs|)
  {
    assert Shrunk(small[k], bs[kept[k]]);
  }

  lemma ShapesShrink()
    ensures forall a, b :: Shrunk(a, b) && IsInstruction(a) ==> IsInstruction(b)
    ensures forall a, b :: Shrunk(a, b) && IsSteer(a) ==> IsSteer(b)
  {
  }

  /** After a removal that touches nothing protected, exactly the same messages are protected. */
  lemma {:induction false} ProtectedMoves(bs: seq<Bone>, small: seq<Bone>, kept: seq<nat>)
    requires Embeds(bs, small, kept, Protected(bs))
    ensures forall k :: 0 <= k < |kept| ==> (k in Protected(small) <==> kept[k] in Protected(bs))
  {
    forall k | 0 <= k < |kept|
      ensures k in Protected(small) <==> kept[k] in Protected(bs)
    {
      ProtectedMovesAt(bs, small, kept, Protected(bs), k);
    }
  }

  lemma {:induction false} ProtectedMovesAt(bs: seq<Bone>, small: seq<Bone>, kept: seq<nat>, fixed: set<nat>, k: nat)
    requires Embeds(bs, small, kept, fixed) && fixed == Protected(bs) && k < |kept|
    ensures k in Protected(small) <==> kept[k] in Protected(bs)
  {
    ProtectedParts(bs);
    ShapesShrink();
    SingletonMoves(bs, small, kept, fixed, IsInstruction, k);
    SingletonMoves(bs, small, kept, fixed, IsSteer, k);
    StandingMoves(bs, small, kept, fixed, k);
    NewestBatchMoves(bs, small, kept, fixed);
  }

  // ---------- the kernel ----------

  /** tryDropOldestReplayClosure's admission of a closure. */
  predicate Droppable(bs: seq<Bone>, index: nat) {
    index < |bs| && index !in Protected(bs) && MessageClosure(bs, index).touched !! Protected(bs)
  }

  /** What goes with message `i`: its assistant and all that answers that one, or itself alone. */
  predicate GoesWith(ms: seq<Message>, i: nat, p: nat)
    requires i < |ms| && p < |ms|
  {
    (exists a :: 0 <= a < |ms| && BelongsTo(ms, i, a) && ms[a].role == Assistant && (p == a || AnswersOne(ms[p], ms[a])))
    || (p == i && forall a :: 0 <= a < |ms| ==> !BelongsTo(ms, i, a))
  }

  lemma {:induction false} ClosureMeaning(ms: seq<Message>, i: nat, p: nat)
    requires i < |ms| && p < |ms|
    ensures p in MessageClosure(Bones(ms), i).touched <==> GoesWith(ms, i, p)
  {
    forall a | 0 <= a < |ms|
      ensures BelongsTo(ms, i, a) <==> Owner(Bones(ms), i) == Some(a)
    {
      OwnerMeaning(ms, i, a);
    }
    if Owner(Bones(ms), i).Some? {
      TouchedMeaning(ms, Owner(Bones(ms), i).value, p);
    }
  }

  /** A message may be dropped exactly when neither it nor anything that goes with it is shielded. */
  lemma {:induction false} DroppableMeaning(ms: seq<Message>, i: nat)
    requires i < |ms|
    ensures Droppable(Bones(ms), i) <==>
              !Shielded(ms, i) && forall p :: 0 <= p < |ms| && GoesWith(ms, i, p) ==> !Shielded(ms, p)
  {
    var touched := MessageClosure(Bones(ms), i).touched;
    ProtectedInRange(Bones(ms));
    forall p | 0 <= p < |ms|
      ensures p in Protected(Bones(ms)) <==> Shielded(ms, p)
      ensures p in touched <==> GoesWith(ms, i, p)
    {
      ProtectedMeaning(ms, p);
      ClosureMeaning(ms, i, p);
    }
  }

  /** The protected messages, in order. */
  function Kernel(ms: seq<Message>, chosen: set<nat>, i: nat): seq<Message>
    requires i <= |ms|
    decreases |ms| - i
  {
    if i == |ms| then [] else (if i in chosen then [ms[i]] else []) + Kernel(ms, chosen, i + 1)
  }

  function ProtectedKernel(ms: seq<Message>): seq<Message> {
    Kernel(ms, Protected(Bones(ms)), 0)
  }

  lemma {:induction false} TouchedCoversChange(bs: seq<Bone>, index: nat)
    requires index < |bs|
    ensures
      var c := MessageClosure(bs, index);
      c.remove <= c.touched && c.removeResults.Keys <= c.touched
  {
  }

  lemma FewerAnswers(some: seq<ToolResult>, all: seq<ToolResult>, x: string)
    requires forall r :: r in some ==> r in all
    requires x in Answered(some)
    ensures x in Answered(all)
  {
    var j :| 0 <= j < |some| && Answered(some)[j] == x;
    assert some[j] in all;
    var l :| 0 <= l < |all| && all[l] == some[j];
    assert Answered(all)[l] == x;
  }

  lemma ThinShrinks(m: Message, i: nat, c: Closure)
    requires Thin(m, i, c).Some?
    ensures Shrunk(BoneOf(Thin(m, i, c).value), BoneOf(m))
  {
    ThinKeeps(m, i, c);
    if i in c.removeResults {
      var some := Thin(m, i, c).value.results;
      KeepResultsAll(m.results, c.removeResults[i]);
      forall x | x in Answered(some)
        ensures x in Answered(m.results)
      {
        FewerAnswers(some, m.results, x);
      }
    }
  }

  lemma {:induction false} DropEmbeds(ms: seq<Message>, index: nat)
    requires Droppable(Bones(ms), index)
    ensures
      var c := MessageClosure(Bones(ms), index);
      Embeds(Bones(ms), Bones(Prune(ms, c, 0)), Kept(ms, c, 0), Protected(Bones(ms)))
    ensures
      var c := MessageClosure(Bones(ms), index);
      forall i :: 0 <= i < |ms| && i in Protected(Bones(ms)) ==> Thin(ms[i], i, c) == Some(ms[i])
  {
    var bs := Bones(ms);
    var c := MessageClosure(bs, index);
    var kept, out := Kept(ms, c, 0), Prune(ms, c, 0);
    KeptMeaning(ms, c, 0);
    TouchedCoversChange(bs, index);
    ProtectedInRange(bs);
    forall k | 0 <= k < |kept|
      ensures Shrunk(BoneOf(out[k]), bs[kept[k]])
    {
      ThinShrinks(ms[kept[k]], kept[k], c);
    }
    forall i | i in Protected(bs)
      ensures i in kept && Thin(ms[i], i, c) == Some(ms[i])
    {
      assert i !in c.remove && i !in c.removeResults;
    }
  }

  lemma {:induction false} ProtectedInRange(bs: seq<Bone>)
    ensures forall i :: i in Protected(bs) ==> i < |bs|
  {
    LastIndexMeaning(bs, IsInstruction, |bs|);
    LastIndexMeaning(bs, IsSteer, |bs|);
    LastIndexMeaning(bs, IsAnswer, |bs|);
  }

  lemma {:induction false} KernelFollows(ms: seq<Message>, c: Closure, chosen: set<nat>, chosenOut: set<nat>, i: nat, k: nat)
    requires i <= |ms| && k <= |Kept(ms, c, 0)| == |Prune(ms, c, 0)|
    requires Kept(ms, c, 0)[k..] == Kept(ms, c, i) && Prune(ms, c, 0)[k..] == Prune(ms, c, i)
    requires forall l :: 0 <= l < |Kept(ms, c, 0)| ==> (l in chosenOut <==> Kept(ms, c, 0)[l] in chosen)
    requires forall p :: 0 <= p < |ms| && p in chosen ==> Thin(ms[p], p, c) == Some(ms[p])
    ensures Kernel(Prune(ms, c, 0), chosenOut, k) == Kernel(ms, chosen, i)
    decreases |ms| - i
  {
    var kept, out := Kept(ms, c, 0), Prune(ms, c, 0);
    if i == |ms| {
      assert k == |out|;
    } else if Thin(ms[i], i, c).Some? {
      assert kept[k..] == [i] + Kept(ms, c, i + 1) && out[k..] == [Thin(ms[i], i, c).value] + Prune(ms, c, i + 1);
      assert kept[k] == kept[k..][0] == i && out[k] == out[k..][0];
      assert kept[k + 1..] == kept[k..][1..] && out[k + 1..] == out[k..][1..];
      KernelFollows(ms, c, chosen, chosenOut, i + 1, k + 1);
    } else {
      KernelFollows(ms, c, chosen, chosenOut, i + 1, k);
    }
  }

  /** Every protected message survives a drop, unchanged and in order, and no other message becomes
      protected by it. */
  lemma {:induction false} DropKeepsKernel(ms: seq<Message>, index: nat)
    requires Droppable(Bones(ms), index)
    ensures ProtectedKernel(Prune(ms, MessageClosure(Bones(ms), index), 0)) == ProtectedKernel(ms)
  {
    var bs := Bones(ms);
    var c := MessageClosure(bs, index);
    DropEmbeds(ms, index);
    KeptMeaning(ms, c, 0);
    ProtectedMoves(bs, Bones(Prune(ms, c, 0)), Kept(ms, c, 0));
    KernelFollows(ms, c, Protected(bs), Protected(Bones(Prune(ms, c, 0))), 0, 0);
  }

  // ---------- the procedure ----------

  /** The parts of the bones that the backward searches read. */
  ghost predicate Mirrors(ms: seq<Message>, bs: seq<Bone>) {
    && |bs| == |ms|
    && forall i :: 0 <= i < |bs| ==> bs[i].role == ms[i].role && bs[i].source == ms[i].source && |bs[i].answered| == |ms[i].results|
  }

  /** A backward search for the last message with a given shape; -1 when there is none. */
  method LatestInstruction(ms: seq<Message>, ghost bs: seq<Bone>) returns (i: int)
    requires Mirrors(ms, bs)
    ensures -1 <= i < |ms| && LastIndex(bs, IsInstruction, |bs|) == if i >= 0 then Some(i) else None
  {
    i := |ms| - 1;
    while i >= 0
      invariant -1 <= i < |ms|
      invariant LastIndex(bs, IsInstruction, |bs|) == LastIndex(bs, IsInstruction, i + 1)
    {
      if ms[i].role == User && ms[i].source != HarnessReminder && ms[i].source != CompactionSummary {
        return;
      }
      i := i - 1;
    }
  }

  method LatestSteer(ms: seq<Message>, ghost bs: seq<Bone>) returns (i: int)
    requires Mirrors(ms, bs)
    ensures -1 <= i < |ms| && LastIndex(bs, IsSteer, |bs|) == if i >= 0 then Some(i) else None
  {
    i := |ms| - 1;
    while i >= 0
      invariant -1 <= i < |ms|
      invariant LastIndex(bs, IsSteer, |bs|) == LastIndex(bs, IsSteer, i + 1)
    {
      if ms[i].role == User && ms[i].source == Steer {
        return;
      }
      i := i - 1;
    }
  }

  method LatestAnswer(ms: seq<Message>, ghost bs: seq<Bone>) returns (i: int)
    requires Mirrors(ms, bs)
    ensures -1 <= i < |ms| && LastIndex(bs, IsAnswer, |bs|) == if i >= 0 then Some(i) else None
  {
    i := |ms| - 1;
    while i >= 0
      invariant -1 <= i < |ms|
      invariant LastIndex(bs, IsAnswer, |bs|) == LastIndex(bs, IsAnswer, i + 1)
    {
      if ms[i].role == Tool && |ms[i].results| != 0 {
        return;
      }
      i := i - 1;
    }
  }

  /** The batch of tool message `t`. */
  method BatchIndexes(ms: seq<Message>, ghost bs: seq<Bone>, t: nat) returns (batch: set<nat>)
    requires bs == Bones(ms) && t < |ms| && IsAnswer(bs[t])
    ensures batch == BatchOf(bs, t)
  {
    batch := {t};
    var results := ms[t].results;
    var id := results[|results| - 1].callId.key;
    assert id == bs[t].answered[|results| - 1];
    if id != "" {
      var touched := IssuerBatch(ms, bs, t, id);
      batch := batch + touched;
    }
  }

  method IssuerBatch(ms: seq<Message>, ghost bs: seq<Bone>, t: nat, id: string) returns (touched: set<nat>)
    requires bs == Bones(ms) && t < |ms|
    ensures touched == match NearestIssuer(bs, t, id) case Some(a) => AssistantClosure(bs, a).touched case None => {}
  {
    touched := {};
    var a := FindIssuer(ms, t, id);
    if a >= 0 {
      var closure := CloseMessage(ms, a);
      touched := closure.touched;
    }
  }

  method StandingIndexes(ms: seq<Message>) returns (standing: set<nat>)
    ensures standing == Standing(Bones(ms), |ms|)
  {
    standing := {};
    for i := 0 to |ms|
      invariant standing == Standing(Bones(ms), i)
    {
      if ms[i].role == System || IsSummary(ms[i]) {
        standing := standing + {i};
      }
    }
  }

  method ProtectedIndexes(ms: seq<Message>) returns (protected: set<nat>)
    ensures protected == Protected(Bones(ms))
  {
    var instruction := LatestInstruction(ms, Bones(ms));
    var steer := LatestSteer(ms, Bones(ms));
    var standing := StandingIndexes(ms);
    var newest := LatestAnswer(ms, Bones(ms));
    var batch := {};
    if newest >= 0 {
      batch := BatchIndexes(ms, Bones(ms), newest);
    }
    protected := (if instruction >= 0 then {instruction as nat} else {}) + (if steer >= 0 then {steer as nat} else {}) + standing + batch;
  }
}
