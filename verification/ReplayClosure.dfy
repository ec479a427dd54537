/**
  Replay closures of a provider view: which messages and results must leave together, which
  messages may never leave, and what a removal keeps
  (internal/runtime/request_budget.go:488-715, internal/runtime/compaction.go:703-734).
*/
module ReplayClosure {
  import Text

  datatype Option<+T> = None | Some(value: T)

  datatype Role = User | Assistant | Tool | System | OtherRole

  /** Where a message came from, as its metadata says. */
  datatype Source = Steer | HarnessReminder | CompactionSummary | OtherSource

  /** An identifier as written and as compared: `key` is `raw` without surrounding white space. */
  datatype Ident = Ident(raw: string, key: string)

  datatype Call = Call(id: Ident, providerId: Ident, name: string, arguments: string)

  datatype BlockKind = AnthropicToolUse | GoogleFunctionCall | OtherBlock

  datatype Block = Block(kind: BlockKind, id: Ident)

  /** A tool result. `replays` names the retained call a hard-fit pointer tells the reader to replay;
      `artifact` is the complete artifact of a finalized output and its size. */
  datatype ToolResult = ToolResult(
    callId: Ident,
    name: string,
    output: string,
    isError: bool,
    pointerized: bool,
    duplicate: bool,
    compacted: bool,
    artifact: Option<(string, nat)>,
    replays: Option<string>)

  /** A message. `marked` says that its text opens with the marker line of a compaction summary;
      `text` is what follows the marker, or the whole text when there is none. */
  datatype Message = Message(
    id: string,
    role: Role,
    source: Source,
    marked: bool,
    text: string,
    calls: seq<Call>,
    results: seq<ToolResult>,
    blocks: seq<Block>)

  /** isCompactionSummaryMessage. */
  predicate IsSummary(m: Message) {
    m.source == CompactionSummary || m.marked
  }

  predicate BlockIssues(b: Block) {
    b.kind != OtherBlock
  }

  /** The identities of the first `n` calls, and of the first `n` provider blocks that are calls. */
  function CallKeys(calls: seq<Call>, n: nat): set<string>
    requires n <= |calls|
  {
    if n == 0 then {} else CallKeys(calls, n - 1) + {calls[n - 1].id.key, calls[n - 1].providerId.key}
  }

  function BlockKeys(blocks: seq<Block>, n: nat): set<string>
    requires n <= |blocks|
  {
    if n == 0 then {} else BlockKeys(blocks, n - 1) + (if BlockIssues(blocks[n - 1]) then {blocks[n - 1].id.key} else {})
  }

  /** assistantToolCallIDs, as a set: harness and provider identities, trimmed, never blank. */
  function Issued(m: Message): set<string> {
    CallKeys(m.calls, |m.calls|) + BlockKeys(m.blocks, |m.blocks|) - {""}
  }

  lemma {:induction false} CallKeysHave(calls: seq<Call>, n: nat, i: nat)
    requires i < n <= |calls|
    ensures calls[i].id.key in CallKeys(calls, n) && calls[i].providerId.key in CallKeys(calls, n)
  {
    if i < n - 1 {
      CallKeysHave(calls, n - 1, i);
    }
  }

  /** A message issues the identities that its calls carry, its own and the provider's, and those of its
      provider blocks that are calls; never a blank one. */
  predicate CarriesCall(m: Message, id: string) {
    id != "" &&
    ((exists k :: 0 <= k < |m.calls| && (m.calls[k].id.key == id || m.calls[k].providerId.key == id))
     || (exists k :: 0 <= k < |m.blocks| && m.blocks[k].kind in {AnthropicToolUse, GoogleFunctionCall} && m.blocks[k].id.key == id))
  }

  lemma {:induction false} CallKeysMeaning(calls: seq<Call>, n: nat, id: string)
    requires n <= |calls|
    ensures id in CallKeys(calls, n) <==> exists k :: 0 <= k < n && (calls[k].id.key == id || calls[k].providerId.key == id)
  {
    if n > 0 {
      CallKeysMeaning(calls, n - 1, id);
    }
  }

  lemma {:induction false} BlockKeysMeaning(blocks: seq<Block>, n: nat, id: string)
    requires n <= |blocks|
    ensures id in BlockKeys(blocks, n) <==> exists k :: 0 <= k < n && blocks[k].kind != OtherBlock && blocks[k].id.key == id
  {
    if n > 0 {
      BlockKeysMeaning(blocks, n - 1, id);
    }
  }

  lemma {:induction false} IssuedMeaning(m: Message, id: string)
    ensures id in Issued(m) <==> CarriesCall(m, id)
  {
    CallKeysMeaning(m.calls, |m.calls|, id);
    BlockKeysMeaning(m.blocks, |m.blocks|, id);
  }

  function Answered(results: seq<ToolResult>): (r: seq<string>)
    ensures |r| == |results| && forall i :: 0 <= i < |r| ==> r[i] == results[i].callId.key
  {
    seq(|results|, i requires 0 <= i < |results| => results[i].callId.key)
  }

  /** The structure of a message that removal and protection depend on. */
  datatype Bone = Bone(role: Role, source: Source, summary: bool, issued: set<string>, answered: seq<string>)

  function BoneOf(m: Message): Bone {
    Bone(m.role, m.source, IsSummary(m), Issued(m), Answered(m.results))
  }

  function Bones(ms: seq<Message>): (bs: seq<Bone>)
    ensures |bs| == |ms| && forall i :: 0 <= i < |ms| ==> bs[i] == BoneOf(ms[i])
  {
    seq(|ms|, i requires 0 <= i < |ms| => BoneOf(ms[i]))
  }

  // ---------- closures ----------

  datatype Closure = Closure(remove: set<nat>, removeResults: map<nat, set<string>>, touched: set<nat>, callIds: set<string>)

  predicate Issues(b: Bone, id: string) {
    b.role == Assistant && id in b.issued
  }

  function Matched(answered: seq<string>, ids: set<string>): set<string> {
    set i | 0 <= i < |answered| && answered[i] in ids :: answered[i]
  }

  predicate Hit(b: Bone, ids: set<string>) {
    b.role == Tool && Matched(b.answered, ids) != {}
  }

  /** Every result matches, each under its own identity. */
  predicate Whole(b: Bone, ids: set<string>) {
    Hit(b, ids) && |Matched(b.answered, ids)| == |b.answered|
  }

  /** Among the first `n` messages: those to remove whole, those to thin, and all of them. */
  function Wholes(bs: seq<Bone>, ids: set<string>, n: nat): set<nat>
    requires n <= |bs|
  {
    set i | 0 <= i < n && Whole(bs[i], ids)
  }

  function Partials(bs: seq<Bone>, ids: set<string>, n: nat): map<nat, set<string>>
    requires n <= |bs|
  {
    map i | 0 <= i < n && Hit(bs[i], ids) && !Whole(bs[i], ids) :: Matched(bs[i].answered, ids)
  }

  function Hits(bs: seq<Bone>, ids: set<string>, n: nat): set<nat>
    requires n <= |bs|
  {
    set i | 0 <= i < n && Hit(bs[i], ids)
  }

  /** replayClosureForAssistant: the assistant and every tool message that answers one of its calls. */
  function AssistantClosure(bs: seq<Bone>, a: nat): Closure
    requires a < |bs| && bs[a].role == Assistant
  {
    var ids := bs[a].issued;
    Closure({a} + Wholes(bs, ids, |bs|), Partials(bs, ids, |bs|), {a} + Hits(bs, ids, |bs|), ids)
  }

  /** The nearest assistant before `before` that issued `id`. */
  function NearestIssuer(bs: seq<Bone>, before: nat, id: string): (r: Option<nat>)
    requires before <= |bs|
    ensures r.Some? ==> r.value < before && Issues(bs[r.value], id)
  {
    if before == 0 then None
    else if Issues(bs[before - 1], id) then Some(before - 1)
    else NearestIssuer(bs, before - 1, id)
  }

  /** The issuer of the first result of `index`, from result `j` on, that has one before it. */
  function FirstOwner(bs: seq<Bone>, index: nat, j: nat): (r: Option<nat>)
    requires index < |bs| && j <= |bs[index].answered|
    ensures r.Some? ==> r.value < index && bs[r.value].role == Assistant
    decreases |bs[index].answered| - j
  {
    if j == |bs[index].answered| then None
    else
      var id := bs[index].answered[j];
      if id != "" && NearestIssuer(bs, index, id).Some? then NearestIssuer(bs, index, id)
      else FirstOwner(bs, index, j + 1)
  }

  function Alone(index: nat, ids: set<string>): Closure {
    Closure({index}, map[], {index}, ids)
  }

  lemma {:induction false} NearestIssuerMeaning(bs: seq<Bone>, before: nat, id: string)
    requires before <= |bs|
    ensures NearestIssuer(bs, before, id).Some? ==>
              forall p :: NearestIssuer(bs, before, id).value < p < before ==> !Issues(bs[p], id)
    ensures NearestIssuer(bs, before, id).None? ==> forall p :: 0 <= p < before ==> !Issues(bs[p], id)
  {
    if before != 0 && !Issues(bs[before - 1], id) {
      NearestIssuerMeaning(bs, before - 1, id);
    }
  }

  lemma {:induction false} FirstOwnerMeaning(bs: seq<Bone>, index: nat, j: nat)
    requires index < |bs| && j <= |bs[index].answered|
    ensures FirstOwner(bs, index, j).None? ==>
              forall k, p :: j <= k < |bs[index].answered| && 0 <= p < index && bs[index].answered[k] != "" ==> !Issues(bs[p], bs[index].answered[k])
    decreases |bs[index].answered| - j
  {
    if j < |bs[index].answered| {
      NearestIssuerMeaning(bs, index, bs[index].answered[j]);
      FirstOwnerMeaning(bs, index, j + 1);
    }
  }

  /** The assistant whose batch message `index` belongs to. */
  function Owner(bs: seq<Bone>, index: nat): (r: Option<nat>)
    requires index < |bs|
    ensures r.Some? ==> r.value <= index && bs[r.value].role == Assistant
  {
    if bs[index].role == Assistant then Some(index)
    else if bs[index].role != Tool || bs[index].answered == [] then None
    else FirstOwner(bs, index, 0)
  }

  /** replayClosureForMessage. */
  function MessageClosure(bs: seq<Bone>, index: nat): Closure
    requires index < |bs|
  {
    match Owner(bs, index)
    case Some(a) => AssistantClosure(bs, a)
    case None => Alone(index, if bs[index].role == Tool then (set k | 0 <= k < |bs[index].answered| :: bs[index].answered[k]) - {""} else {})
  }

  // ---------- removal ----------

  /** The first `n` results without those that answer `ids`. */
  function KeepResults(results: seq<ToolResult>, ids: set<string>, n: nat): seq<ToolResult>
    requires n <= |results|
  {
    if n == 0 then []
    else KeepResults(results, ids, n - 1) + (if results[n - 1].callId.key in ids then [] else [results[n - 1]])
  }

  predicate Blank(m: Message) {
    !m.marked && forall c :: c in m.text ==> Text.IsSpace(c)
  }

  /** What is left of message `i`. */
  function Thin(m: Message, i: nat, c: Closure): Option<Message> {
    if i in c.remove then None
    else if i in c.removeResults && c.removeResults[i] != {} && m.role == Tool then
      var kept := m.(results := KeepResults(m.results, c.removeResults[i], |m.results|));
      if kept.results == [] && Blank(m) then None else Some(kept)
    else Some(m)
  }

  function Prune(ms: seq<Message>, c: Closure, i: nat): seq<Message>
    requires i <= |ms|
    decreases |ms| - i
  {
    if i == |ms| then []
    else (if Thin(ms[i], i, c).Some? then [Thin(ms[i], i, c).value] else []) + Prune(ms, c, i + 1)
  }

  /** The positions a removal keeps, in order. */
  function Kept(ms: seq<Message>, c: Closure, i: nat): (r: seq<nat>)
    requires i <= |ms|
    decreases |ms| - i
  {
    if i == |ms| then []
    else (if Thin(ms[i], i, c).Some? then [i] else []) + Kept(ms, c, i + 1)
  }

  /** Position `k` of a removal from message `i` on. */
  predicate KeptAt(ms: seq<Message>, c: Closure, kept: seq<nat>, out: seq<Message>, i: nat, k: nat)
    requires k < |kept| && k < |out|
  {
    i <= kept[k] < |ms| && Thin(ms[kept[k]], kept[k], c) == Some(out[k])
  }

  lemma {:induction false} KeptAligns(ms: seq<Message>, c: Closure, i: nat)
    requires i <= |ms|
    ensures |Kept(ms, c, i)| == |Prune(ms, c, i)|
    ensures forall k :: 0 <= k < |Kept(ms, c, i)| ==> KeptAt(ms, c, Kept(ms, c, i), Prune(ms, c, i), i, k)
    decreases |ms| - i
  {
    if i < |ms| {
      KeptAligns(ms, c, i + 1);
      var kept, out := Kept(ms, c, i + 1), Prune(ms, c, i + 1);
      forall k | 0 <= k < |kept|
        ensures i < kept[k] < |ms| && Thin(ms[kept[k]], kept[k], c) == Some(out[k])
      {
        assert KeptAt(ms, c, kept, out, i + 1, k);
      }
    }
  }

  lemma {:induction false} KeptIncreases(ms: seq<Message>, c: Closure, i: nat)
    requires i <= |ms|
    ensures forall k :: 0 <= k < |Kept(ms, c, i)| ==> i <= Kept(ms, c, i)[k]
    ensures forall k, l :: 0 <= k < l < |Kept(ms, c, i)| ==> Kept(ms, c, i)[k] < Kept(ms, c, i)[l]
    decreases |ms| - i
  {
    if i < |ms| {
      KeptIncreases(ms, c, i + 1);
    }
  }

  lemma {:induction false} KeptHas(ms: seq<Message>, c: Closure, i: nat, p: nat)
    requires i <= p < |ms| && Thin(ms[p], p, c).Some?
    ensures p in Kept(ms, c, i)
    decreases |ms| - i
  {
    if i < p {
      KeptHas(ms, c, i + 1, p);
    }
  }

  /** The removal as an order-preserving embedding of what is kept. */
  lemma {:induction false} KeptMeaning(ms: seq<Message>, c: Closure, i: nat)
    requires i <= |ms|
    ensures |Kept(ms, c, i)| == |Prune(ms, c, i)|
    ensures forall k :: 0 <= k < |Kept(ms, c, i)| ==>
              && i <= Kept(ms, c, i)[k] < |ms|
              && Thin(ms[Kept(ms, c, i)[k]], Kept(ms, c, i)[k], c) == Some(Prune(ms, c, i)[k])
    ensures forall k, l :: 0 <= k < l < |Kept(ms, c, i)| ==> Kept(ms, c, i)[k] < Kept(ms, c, i)[l]
    ensures forall p :: i <= p < |ms| && Thin(ms[p], p, c).Some? ==> p in Kept(ms, c, i)
  {
    KeptAligns(ms, c, i);
    KeptIncreases(ms, c, i);
    var kept, out := Kept(ms, c, i), Prune(ms, c, i);
    forall k | 0 <= k < |kept|
      ensures i <= kept[k] < |ms| && Thin(ms[kept[k]], kept[k], c) == Some(out[k])
    {
      assert KeptAt(ms, c, kept, out, i, k);
    }
    forall p | i <= p < |ms| && Thin(ms[p], p, c).Some?
      ensures p in kept
    {
      KeptHas(ms, c, i, p);
    }
  }

  /** A thinned message keeps everything but results. */
  lemma ThinKeeps(m: Message, i: nat, c: Closure)
    requires Thin(m, i, c).Some?
    ensures
      var t := Thin(m, i, c).value;
      && t.(results := m.results) == m
      && BoneOf(t) == BoneOf(m).(answered := Answered(t.results))
      && (m.role != Tool ==> t == m)
      && (i !in c.removeResults ==> t == m)
  {
  }

  lemma {:induction false} KeepResultsMeaning(results: seq<ToolResult>, ids: set<string>, n: nat)
    requires n <= |results|
    ensures forall r :: r in KeepResults(results, ids, n) <==> r in results[..n] && r.callId.key !in ids
  {
    if n > 0 {
      KeepResultsMeaning(results, ids, n - 1);
      assert results[..n] == results[..n - 1] + [results[n - 1]];
    }
  }

  lemma KeepResultsAll(results: seq<ToolResult>, ids: set<string>)
    ensures forall r :: r in KeepResults(results, ids, |results|) <==> r in results && r.callId.key !in ids
  {
    KeepResultsMeaning(results, ids, |results|);
    assert results[..|results|] == results;
  }

  /** The results kept are those that answer nothing of `ids`, all of them, in order. */
  lemma {:induction false} KeepResultsEmbeds(results: seq<ToolResult>, ids: set<string>, n: nat) returns (at: seq<nat>)
    requires n <= |results|
    ensures |at| == |KeepResults(results, ids, n)|
    ensures forall k :: 0 <= k < |at| ==> at[k] < n && results[at[k]] == KeepResults(results, ids, n)[k]
    ensures forall k, l :: 0 <= k < l < |at| ==> at[k] < at[l]
    ensures forall i :: 0 <= i < n ==> (i in at <==> results[i].callId.key !in ids)
  {
    at := [];
    if n > 0 {
      at := KeepResultsEmbeds(results, ids, n - 1);
      if results[n - 1].callId.key !in ids {
        at := at + [n - 1];
      }
    }
  }

  // ---------- pairing ----------

  /** If as many distinct identities match as there are results, then all results match. */
  lemma {:induction false} MatchedBound(answered: seq<string>, ids: set<string>)
    ensures |Matched(answered, ids)| <= |answered|
    ensures |Matched(answered, ids)| == |answered| ==> forall i :: 0 <= i < |answered| ==> answered[i] in ids
  {
    if answered == [] {
      assert Matched(answered, ids) == {};
    } else {
      var last := |answered| - 1;
      var init := answered[..last];
      MatchedBound(init, ids);
      if answered[last] in ids {
        assert Matched(answered, ids) == Matched(init, ids) + {answered[last]};
      } else {
        assert Matched(answered, ids) == Matched(init, ids);
      }
      assert forall i :: 0 <= i < last ==> answered[i] == init[i];
    }
  }

  lemma MatchedHas(answered: seq<string>, ids: set<string>, k: nat)
    requires k < |answered|
    ensures answered[k] in ids <==> answered[k] in Matched(answered, ids)
  {
  }

  /** A thinned tool message keeps none of the results its closure matches. */
  lemma ThinDropsMatched(m: Message, i: nat, c: Closure, ids: set<string>, r: ToolResult)
    requires m.role == Tool && Thin(m, i, c).Some? && r in Thin(m, i, c).value.results
    requires if i in c.removeResults then c.removeResults[i] == Matched(Answered(m.results), ids)
             else Matched(Answered(m.results), ids) == {}
    ensures r in m.results && r.callId.key !in ids
  {
    if i in c.removeResults {
      KeepResultsAll(m.results, c.removeResults[i]);
    }
    var k :| 0 <= k < |m.results| && m.results[k] == r;
    MatchedHas(Answered(m.results), ids, k);
  }

  /** What the closure of assistant `a` does to tool message `p`. */
  lemma AssistantClosureAt(bs: seq<Bone>, a: nat, p: nat)
    requires a < |bs| && bs[a].role == Assistant && p < |bs| && p != a
    ensures
      var c := AssistantClosure(bs, a);
      && (p in c.remove <==> Whole(bs[p], bs[a].issued))
      && (p in c.removeResults <==> Hit(bs[p], bs[a].issued) && !Whole(bs[p], bs[a].issued))
      && (p in c.removeResults ==> c.removeResults[p] == Matched(bs[p].answered, bs[a].issued))
  {
  }

  /** After dropping an assistant's closure, no result that answers it is left. */
  lemma DropRemovesAnswers(ms: seq<Message>, a: nat, p: nat, r: ToolResult)
    requires a < |ms| && ms[a].role == Assistant && p < |ms| && ms[p].role == Tool
    requires Thin(ms[p], p, AssistantClosure(Bones(ms), a)).Some?
    requires r in Thin(ms[p], p, AssistantClosure(Bones(ms), a)).value.results
    ensures r in ms[p].results && r.callId.key !in Issued(ms[a])
  {
    AssistantClosureAt(Bones(ms), a, p);
    ThinDropsMatched(ms[p], p, AssistantClosure(Bones(ms), a), Issued(ms[a]), r);
  }

  /** A message that is no tool message and not the dropped one stays as it is. */
  lemma OthersStay(ms: seq<Message>, index: nat, q: nat)
    requires index < |ms| && q < |ms| && ms[q].role == Assistant
    requires Owner(Bones(ms), index) != Some(q)
    ensures Thin(ms[q], q, MessageClosure(Bones(ms), index)) == Some(ms[q])
  {
  }

  /** No retained result loses an assistant that issued its identity. */
  lemma RetainedResultKeepsIssuers(ms: seq<Message>, index: nat, p: nat, r: ToolResult, q: nat)
    requires index < |ms| && p < |ms| && q < |ms| && ms[p].role == Tool
    requires
      var c := MessageClosure(Bones(ms), index);
      Thin(ms[p], p, c).Some? && r in Thin(ms[p], p, c).value.results
    requires r.callId.key != "" && Issues(BoneOf(ms[q]), r.callId.key)
    ensures Thin(ms[q], q, MessageClosure(Bones(ms), index)) == Some(ms[q])
  {
    if Owner(Bones(ms), index) == Some(q) {
      DropRemovesAnswers(ms, q, p, r);
      assert false;
    }
    OthersStay(ms, index, q);
  }

  /** With disjoint identities, a retained call keeps every later result. */
  lemma RetainedCallKeepsResults(ms: seq<Message>, index: nat, q: nat, p: nat, r: ToolResult)
    requires index < |ms| && q < p < |ms| && ms[p].role == Tool && r in ms[p].results
    requires r.callId.key != "" && Issues(BoneOf(ms[q]), r.callId.key)
    requires Thin(ms[q], q, MessageClosure(Bones(ms), index)).Some?
    requires forall a :: 0 <= a < |ms| && a != q && ms[a].role == Assistant ==> Issued(ms[a]) !! Issued(ms[q])
    ensures
      var c := MessageClosure(Bones(ms), index);
      Thin(ms[p], p, c).Some? && r in Thin(ms[p], p, c).value.results
  {
    var bs := Bones(ms);
    var k :| 0 <= k < |ms[p].results| && ms[p].results[k] == r;
    assert bs[p].answered[k] == r.callId.key;
    match Owner(bs, index) {
      case Some(a) =>
        assert a != q;
        assert bs[p].answered[k] !in bs[a].issued;
        DropKeepsOthers(ms, a, p, r, k);
      case None =>
        FirstOwnerMeaning(bs, index, 0);
        assert p != index;
    }
  }

  lemma DropKeepsOthers(ms: seq<Message>, a: nat, p: nat, r: ToolResult, k: nat)
    requires a < |ms| && ms[a].role == Assistant && p < |ms| && ms[p].role == Tool
    requires k < |ms[p].results| && ms[p].results[k] == r && r.callId.key !in Issued(ms[a])
    ensures
      var c := AssistantClosure(Bones(ms), a);
      Thin(ms[p], p, c).Some? && r in Thin(ms[p], p, c).value.results
  {
    var bs := Bones(ms);
    var c := AssistantClosure(bs, a);
    MatchedBound(bs[p].answered, bs[a].issued);
    MatchedHas(bs[p].answered, bs[a].issued, k);
    AssistantClosureAt(bs, a, p);
    if p in c.removeResults {
      KeepResultsAll(ms[p].results, c.removeResults[p]);
    }
  }

  /** For any view and any removal: a result block stays exactly when it does not answer the dropped
      assistant, or, where no assistant is dropped, when its message is not the one removed. */
  lemma ResultStaysIffUnanswered(ms: seq<Message>, index: nat, p: nat, r: ToolResult)
    requires index < |ms| && p < |ms| && ms[p].role == Tool && r in ms[p].results
    ensures Stays(ms, index, p, r) <==> match Owner(Bones(ms), index)
                                        case Some(a) => r.callId.key !in Issued(ms[a])
                                        case None => p != index
  {
    var k :| 0 <= k < |ms[p].results| && ms[p].results[k] == r;
    match Owner(Bones(ms), index) {
      case Some(a) =>
        if r.callId.key !in Issued(ms[a]) {
          DropKeepsOthers(ms, a, p, r, k);
        } else if Stays(ms, index, p, r) {
          DropRemovesAnswers(ms, a, p, r);
          assert false;
        }
      case None =>
    }
  }

  predicate Stays(ms: seq<Message>, index: nat, p: nat, r: ToolResult)
    requires index < |ms| && p < |ms|
  {
    var c := MessageClosure(Bones(ms), index);
    Thin(ms[p], p, c).Some? && r in Thin(ms[p], p, c).value.results
  }

  /** A retained call loses a later result exactly when the dropped assistant issued the same identity. */
  lemma RetainedCallLosesIffShared(ms: seq<Message>, index: nat, q: nat, p: nat, r: ToolResult)
    requires index < |ms| && q < p < |ms| && ms[p].role == Tool && r in ms[p].results
    requires r.callId.key != "" && Issues(BoneOf(ms[q]), r.callId.key)
    requires Thin(ms[q], q, MessageClosure(Bones(ms), index)).Some?
    ensures !Stays(ms, index, p, r) <==>
              Owner(Bones(ms), index).Some? && r.callId.key in Issued(ms[Owner(Bones(ms), index).value])
  {
    ResultStaysIffUnanswered(ms, index, p, r);
    if Owner(Bones(ms), index).None? {
      FirstOwnerMeaning(Bones(ms), index, 0);
      var k :| 0 <= k < |ms[p].results| && ms[p].results[k] == r;
      assert Bones(ms)[p].answered[k] == r.callId.key;
    }
  }

  /** Two assistants that share an identity: dropping the first takes the second one's result along, and
      leaves the second without it, whatever else the messages hold. */
  lemma {:induction false} SharedIdentityLosesResult(ms: seq<Message>, id: string)
    requires |ms| == 3 && ms[0].role == Assistant && ms[1].role == Assistant && ms[2].role == Tool
    requires Issues(BoneOf(ms[0]), id) && Issues(BoneOf(ms[1]), id) && Answered(ms[2].results) == [id]
    ensures Prune(ms, MessageClosure(Bones(ms), 0), 0) == [ms[1]]
  {
    var bs := Bones(ms);
    assert bs[2].answered[0] == id;
    assert id in Matched(bs[2].answered, bs[0].issued);
    MatchedBound(bs[2].answered, bs[0].issued);
    assert |Matched(bs[2].answered, bs[0].issued)| == 1 by {
      assert Matched(bs[2].answered, bs[0].issued) == {id};
    }
    var c := MessageClosure(bs, 0);
    assert c == AssistantClosure(bs, 0);
    assert 0 in c.remove && 2 in c.remove && 1 !in c.remove;
    assert Prune(ms, c, 3) == [];
    assert Prune(ms, c, 2) == [];
    assert Prune(ms, c, 1) == [ms[1]];
  }

  // ---------- what a removal leaves, message by message ----------

  /** Some assistant before `index` carries a call with this identity. */
  predicate IssuedBefore(ms: seq<Message>, index: nat, id: string)
    requires index <= |ms|
  {
    exists a :: 0 <= a < index && ms[a].role == Assistant && CarriesCall(ms[a], id)
  }

  /** The nearest such assistant is `a`. */
  predicate IssuedLastBy(ms: seq<Message>, index: nat, id: string, a: nat)
    requires index <= |ms|
  {
    && a < index && ms[a].role == Assistant && CarriesCall(ms[a], id)
    && forall p :: a < p < index && ms[p].role == Assistant ==> !CarriesCall(ms[p], id)
  }

  /** The assistant a message belongs to: itself, or for a tool message the nearest issuer of its first
      result that has an issuer before it. */
  predicate BelongsTo(ms: seq<Message>, index: nat, a: nat)
    requires index < |ms|
  {
    match ms[index].role
    case Assistant => a == index
    case Tool => exists j :: 0 <= j < |ms[index].results| && DecidedBy(ms, index, j, a)
    case _ => false
  }

  predicate DecidedBy(ms: seq<Message>, index: nat, j: nat, a: nat)
    requires index < |ms| && j < |ms[index].results|
  {
    IssuedLastBy(ms, index, ms[index].results[j].callId.key, a) && Unissued(ms, index, j)
  }

  lemma {:induction false} IssuerMeaning(ms: seq<Message>, before: nat, id: string)
    requires before <= |ms|
    ensures NearestIssuer(Bones(ms), before, id).Some? ==>
              id != "" && IssuedLastBy(ms, before, id, NearestIssuer(Bones(ms), before, id).value)
    ensures NearestIssuer(Bones(ms), before, id).None? ==> !IssuedBefore(ms, before, id)
  {
    NearestIssuerMeaning(Bones(ms), before, id);
    forall p | 0 <= p < |ms|
      ensures Issues(Bones(ms)[p], id) <==> ms[p].role == Assistant && CarriesCall(ms[p], id)
    {
      IssuedMeaning(ms[p], id);
    }
  }

  predicate Unissued(ms: seq<Message>, index: nat, n: nat)
    requires index < |ms| && n <= |ms[index].results|
  {
    forall i :: 0 <= i < n ==> !IssuedBefore(ms, index, ms[index].results[i].callId.key)
  }

  lemma {:induction false} FirstOwnerIs(ms: seq<Message>, index: nat, j: nat) returns (i: nat)
    requires index < |ms| && j <= |ms[index].results| && Unissued(ms, index, j)
    ensures |Bones(ms)[index].answered| == |ms[index].results|
    ensures FirstOwner(Bones(ms), index, j).None? ==> Unissued(ms, index, |ms[index].results|)
    ensures FirstOwner(Bones(ms), index, j).Some? ==>
              && i < |ms[index].results| && Unissued(ms, index, i)
              && IssuedLastBy(ms, index, ms[index].results[i].callId.key, FirstOwner(Bones(ms), index, j).value)
    decreases |ms[index].results| - j
  {
    i := j;
    assert |Bones(ms)[index].answered| == |ms[index].results|;
    if j < |ms[index].results| {
      var id := ms[index].results[j].callId.key;
      assert Bones(ms)[index].answered[j] == id;
      IssuerMeaning(ms, index, id);
      if id == "" || NearestIssuer(Bones(ms), index, id).None? {
        assert !IssuedBefore(ms, index, id);
        assert FirstOwner(Bones(ms), index, j) == FirstOwner(Bones(ms), index, j + 1);
        i := FirstOwnerIs(ms, index, j + 1);
      }
    }
  }

  lemma DecidedOnce(ms: seq<Message>, index: nat, i: nat, a: nat, j: nat, b: nat)
    requires index < |ms| && i < |ms[index].results| && j < |ms[index].results|
    requires DecidedBy(ms, index, i, a) && DecidedBy(ms, index, j, b)
    ensures a == b
  {
    assert IssuedBefore(ms, index, ms[index].results[i].callId.key);
    assert IssuedBefore(ms, index, ms[index].results[j].callId.key);
  }

  lemma {:induction false} ToolOwnerMeaning(ms: seq<Message>, index: nat, a: nat)
    requires index < |ms| && ms[index].role == Tool
    ensures FirstOwner(Bones(ms), index, 0) == Some(a) <==> exists j :: 0 <= j < |ms[index].results| && DecidedBy(ms, index, j, a)
  {
    var first := FirstOwnerIs(ms, index, 0);
    match FirstOwner(Bones(ms), index, 0) {
      case None =>
        forall j | 0 <= j < |ms[index].results|
          ensures !DecidedBy(ms, index, j, a)
        {
          assert !IssuedBefore(ms, index, ms[index].results[j].callId.key);
        }
      case Some(b) =>
        assert DecidedBy(ms, index, first, b);
        forall j | 0 <= j < |ms[index].results| && DecidedBy(ms, index, j, a)
          ensures a == b
        {
          DecidedOnce(ms, index, first, b, j, a);
        }
    }
  }

  lemma {:induction false} OwnerMeaning(ms: seq<Message>, index: nat, a: nat)
    requires index < |ms|
    ensures Owner(Bones(ms), index) == Some(a) <==> BelongsTo(ms, index, a)
  {
    assert |Bones(ms)[index].answered| == |ms[index].results|;
    if ms[index].role == Tool {
      ToolOwnerMeaning(ms, index, a);
    }
  }

  predicate DistinctAnswers(m: Message) {
    forall i, j :: 0 <= i < j < |m.results| ==> m.results[i].callId.key != m.results[j].callId.key
  }

  /** As many distinct identities match as there are results exactly when all match, each its own. */
  lemma {:induction false} MatchedFull(answered: seq<string>, ids: set<string>)
    requires forall i :: 0 <= i < |answered| ==> answered[i] in ids
    requires forall i, j :: 0 <= i < j < |answered| ==> answered[i] != answered[j]
    ensures |Matched(answered, ids)| == |answered|
  {
    if answered == [] {
      assert Matched(answered, ids) == {};
    } else {
      var last := |answered| - 1;
      var init := answered[..last];
      MatchedFull(init, ids);
      assert Matched(answered, ids) == Matched(init, ids) + {answered[last]};
    }
  }

  lemma {:induction false} MatchedRepeats(answered: seq<string>, ids: set<string>, i: nat, j: nat)
    requires i < j < |answered| && answered[i] == answered[j]
    ensures |Matched(answered, ids)| < |answered|
  {
    var rest := answered[..j] + answered[j + 1..];
    MatchedBound(rest, ids);
    forall x | x in Matched(answered, ids)
      ensures x in Matched(rest, ids)
    {
      var k :| 0 <= k < |answered| && answered[k] in ids && answered[k] == x;
      var at := if k < j then k else if k == j then i else k - 1;
      assert rest[at] == x;
    }
    forall x | x in Matched(rest, ids)
      ensures x in Matched(answered, ids)
    {
      var k :| 0 <= k < |rest| && rest[k] in ids && rest[k] == x;
      assert answered[if k < j then k else k + 1] == x;
    }
    assert Matched(answered, ids) == Matched(rest, ids);
  }

  /** Every result of the message answers a call of the assistant. */
  predicate AnswersOnly(m: Message, assistant: Message) {
    m.role == Tool && m.results != [] && forall j :: 0 <= j < |m.results| ==> CarriesCall(assistant, m.results[j].callId.key)
  }

  lemma {:induction false} WholeMeaning(m: Message, assistant: Message)
    ensures Whole(BoneOf(m), Issued(assistant)) <==> AnswersOnly(m, assistant) && DistinctAnswers(m)
    ensures Matched(BoneOf(m).answered, Issued(assistant)) != {} <==>
              exists j :: 0 <= j < |m.results| && CarriesCall(assistant, m.results[j].callId.key)
    ensures AnswersOnly(m, assistant) ==> Hit(BoneOf(m), Issued(assistant))
  {
    var answered, ids := BoneOf(m).answered, Issued(assistant);
    forall j | 0 <= j < |m.results|
      ensures answered[j] in ids <==> CarriesCall(assistant, m.results[j].callId.key)
    {
      IssuedMeaning(assistant, answered[j]);
    }
    MatchedBound(answered, ids);
    if j :| 0 <= j < |m.results| && CarriesCall(assistant, m.results[j].callId.key) {
      MatchedHas(answered, ids, j);
    }
    if AnswersOnly(m, assistant) {
      MatchedHas(answered, ids, 0);
      if DistinctAnswers(m) {
        MatchedFull(answered, ids);
      }
    }
    if !DistinctAnswers(m) {
      var i, j :| 0 <= i < j < |m.results| && m.results[i].callId.key == m.results[j].callId.key;
      MatchedRepeats(answered, ids, i, j);
    }
  }

  lemma {:induction false} KeepResultsEmpty(results: seq<ToolResult>, ids: set<string>)
    ensures KeepResults(results, ids, |results|) == [] <==> forall j :: 0 <= j < |results| ==> results[j].callId.key in ids
  {
    KeepResultsAll(results, ids);
    forall j | 0 <= j < |results| && results[j].callId.key !in ids
      ensures KeepResults(results, ids, |results|) != []
    {
      assert results[j] in KeepResults(results, ids, |results|);
    }
    if KeepResults(results, ids, |results|) != [] {
      var r := KeepResults(results, ids, |results|)[0];
      assert r in results && r.callId.key !in ids;
    }
  }

  /** Which messages a removal takes away, for any view and any message it starts from: the assistant that
      message belongs to, and the tool messages that answer nothing else, unless they have a text of their
      own and answer one identity twice; or that message alone, when it belongs to no assistant. */
  lemma {:induction false} GoneIff(ms: seq<Message>, index: nat, p: nat)
    requires index < |ms| && p < |ms|
    ensures Thin(ms[p], p, MessageClosure(Bones(ms), index)).None? <==>
              match Owner(Bones(ms), index)
              case None => p == index
              case Some(a) => p == a || (AnswersOnly(ms[p], ms[a]) && (DistinctAnswers(ms[p]) || Blank(ms[p])))
  {
    var bs := Bones(ms);
    match Owner(bs, index) {
      case None =>
      case Some(a) =>
        if p != a {
          WholeMeaning(ms[p], ms[a]);
          AssistantClosureAt(bs, a, p);
          if !Whole(bs[p], bs[a].issued) {
            PartialGoneIff(ms, a, p);
          }
        }
    }
  }

  lemma {:induction false} PartialGoneIff(ms: seq<Message>, a: nat, p: nat)
    requires a < |ms| && ms[a].role == Assistant && p < |ms| && p != a && !Whole(Bones(ms)[p], Issued(ms[a]))
    ensures Thin(ms[p], p, AssistantClosure(Bones(ms), a)).None? <==> AnswersOnly(ms[p], ms[a]) && Blank(ms[p])
  {
    var bs := Bones(ms);
    var ids := Issued(ms[a]);
    AssistantClosureAt(bs, a, p);
    if Hit(bs[p], ids) {
      var matched := Matched(bs[p].answered, ids);
      KeepResultsEmpty(ms[p].results, matched);
      forall j | 0 <= j < |ms[p].results|
        ensures ms[p].results[j].callId.key in matched <==> CarriesCall(ms[a], ms[p].results[j].callId.key)
      {
        IssuedMeaning(ms[a], bs[p].answered[j]);
        if bs[p].answered[j] in ids {
          MatchedHas(bs[p].answered, ids, j);
        }
      }
    } else {
      WholeMeaning(ms[p], ms[a]);
    }
  }

  // ---------- the procedures ----------

  /** The identities a message issued, in first-seen order and without repeats. */
  method CallIds(m: Message) returns (ids: seq<string>)
    ensures forall x :: x in ids <==> x in Issued(m)
    ensures forall i, j :: 0 <= i < j < |ids| ==> ids[i] != ids[j]
  {
    ids := [];
    for i := 0 to |m.calls|
      invariant forall x :: x in ids <==> x != "" && x in CallKeys(m.calls, i)
      invariant forall i, j :: 0 <= i < j < |ids| ==> ids[i] != ids[j]
    {
      ids := AddId(ids, m.calls[i].id);
      ids := AddId(ids, m.calls[i].providerId);
    }
    for i := 0 to |m.blocks|
      invariant forall x :: x in ids <==> x != "" && (x in CallKeys(m.calls, |m.calls|) || x in BlockKeys(m.blocks, i))
      invariant forall i, j :: 0 <= i < j < |ids| ==> ids[i] != ids[j]
    {
      if BlockIssues(m.blocks[i]) {
        ids := AddId(ids, m.blocks[i].id);
      }
    }
  }

  method AddId(ids: seq<string>, value: Ident) returns (out: seq<string>)
    requires forall i, j :: 0 <= i < j < |ids| ==> ids[i] != ids[j]
    ensures forall x :: x in out <==> x in ids || (x == value.key && x != "")
    ensures forall i, j :: 0 <= i < j < |out| ==> out[i] != out[j]
  {
    var id := value.key;
    if id == "" || id in ids {
      return ids;
    }
    out := ids + [id];
  }

  const EMPTY_CLOSURE := Closure({}, map[], {}, {})

  /** replayClosureForAssistant. */
  method CloseAssistant(ms: seq<Message>, a: int) returns (c: Closure)
    ensures c == if 0 <= a < |ms| && ms[a].role == Assistant then AssistantClosure(Bones(ms), a) else EMPTY_CLOSURE
  {
    if a < 0 || a >= |ms| || ms[a].role != Assistant {
      return EMPTY_CLOSURE;
    }
    var list := CallIds(ms[a]);
    var ids := set i | 0 <= i < |list| :: list[i];
    ghost var bs := Bones(ms);
    assert ids == bs[a].issued;
    if ids == {} {
      assert forall i :: 0 <= i < |bs| ==> !Hit(bs[i], {});
      assert Partials(bs, ids, |bs|) == map[];
      return Closure({a as nat}, map[], {a as nat}, {});
    }
    var remove, removeResults, touched := CloseTools(ms, bs, ids);
    c := Closure({a as nat} + remove, removeResults, {a as nat} + touched, ids);
  }

  /** The loop of replayClosureForAssistant over the tool messages. */
  method CloseTools(ms: seq<Message>, ghost bs: seq<Bone>, ids: set<string>) returns (remove: set<nat>, removeResults: map<nat, set<string>>, touched: set<nat>)
    requires |bs| == |ms| && forall i :: 0 <= i < |ms| ==> bs[i].role == ms[i].role && bs[i].answered == Answered(ms[i].results)
    ensures remove == Wholes(bs, ids, |ms|)
    ensures removeResults == Partials(bs, ids, |ms|)
    ensures touched == Hits(bs, ids, |ms|)
  {
    remove, removeResults, touched := {}, map[], {};
    for i := 0 to |ms|
      invariant remove == Wholes(bs, ids, i)
      invariant removeResults == Partials(bs, ids, i)
      invariant touched == Hits(bs, ids, i)
    {
      WholesStep(bs, ids, i);
      HitsStep(bs, ids, i);
      PartialsStep(bs, ids, i);
      var hit, whole, matches := Answers(ms[i], bs[i], ids);
      touched := if hit then touched + {i} else touched + {};
      remove := if whole then remove + {i} else remove + {};
      removeResults := if hit && !whole then removeResults[i := matches] else removeResults;
      assert remove == Wholes(bs, ids, i + 1) && touched == Hits(bs, ids, i + 1);
      assert removeResults == Partials(bs, ids, i + 1);
    }
  }

  /** Whether a message answers some of `ids`, whether all its results do, and which ones. */
  method Answers(m: Message, ghost b: Bone, ids: set<string>) returns (hit: bool, whole: bool, matches: set<string>)
    requires b.role == m.role && b.answered == Answered(m.results)
    ensures hit == Hit(b, ids) && whole == Whole(b, ids)
    ensures hit ==> matches == Matched(b.answered, ids)
  {
    matches := MatchingIds(m, ids);
    hit := matches != {};
    whole := hit && |matches| == |m.results|;
  }

  lemma WholesStep(bs: seq<Bone>, ids: set<string>, i: nat)
    requires i < |bs|
    ensures Wholes(bs, ids, i + 1) == Wholes(bs, ids, i) + (if Whole(bs[i], ids) then {i} else {})
  {
  }

  lemma HitsStep(bs: seq<Bone>, ids: set<string>, i: nat)
    requires i < |bs|
    ensures Hits(bs, ids, i + 1) == Hits(bs, ids, i) + (if Hit(bs[i], ids) then {i} else {})
  {
  }

  lemma PartialsStep(bs: seq<Bone>, ids: set<string>, i: nat)
    requires i < |bs|
    ensures Partials(bs, ids, i + 1) ==
              if Hit(bs[i], ids) && !Whole(bs[i], ids) then Partials(bs, ids, i)[i := Matched(bs[i].answered, ids)]
              else Partials(bs, ids, i)
  {
  }

  /** The identities of `ids` that a tool message answers; none for any other message. */
  method MatchingIds(m: Message, ids: set<string>) returns (matches: set<string>)
    ensures matches == if m.role == Tool then Matched(Answered(m.results), ids) else {}
  {
    matches := {};
    if m.role != Tool || |m.results| == 0 {
      return;
    }
    var results := m.results;
    ghost var answered := Answered(results);
    for i := 0 to |results|
      invariant matches == Matched(answered[..i], ids)
    {
      var id := results[i].callId.key;
      MatchedStep(answered, ids, i);
      if id in ids {
        matches := matches + {id};
      }
    }
    assert answered[..|results|] == answered;
  }

  lemma MatchedStep(answered: seq<string>, ids: set<string>, i: nat)
    requires i < |answered|
    ensures Matched(answered[..i + 1], ids) == Matched(answered[..i], ids) + (if answered[i] in ids then {answered[i]} else {})
  {
    var next := answered[..i + 1];
    assert forall k :: 0 <= k < i ==> next[k] == answered[..i][k];
    assert next[i] == answered[i];
  }

  /** The backward search for the assistant that issued a call; -1 when there is none. */
  method FindIssuer(ms: seq<Message>, before: nat, id: string) returns (a: int)
    requires before <= |ms|
    ensures match NearestIssuer(Bones(ms), before, id)
            case Some(issuer) => a == issuer
            case None => a == -1
  {
    a := before - 1;
    while a >= 0
      invariant -1 <= a < before
      invariant NearestIssuer(Bones(ms), before, id) == NearestIssuer(Bones(ms), a + 1, id)
    {
      if ms[a].role == Assistant {
        var ids := CallIds(ms[a]);
        if id in ids {
          return;
        }
      }
      a := a - 1;
    }
  }

  /** replayClosureForMessage. */
  method CloseMessage(ms: seq<Message>, index: int) returns (c: Closure)
    ensures c == if 0 <= index < |ms| then MessageClosure(Bones(ms), index) else EMPTY_CLOSURE
  {
    if index < 0 || index >= |ms| {
      return EMPTY_CLOSURE;
    }
    var message := ms[index];
    if message.role == Assistant {
      c := CloseAssistant(ms, index);
      return;
    }
    if message.role != Tool || |message.results| == 0 {
      return Closure({index as nat}, map[], {index as nat}, {});
    }
    var a := FindOwner(ms, index);
    if a >= 0 {
      c := CloseAssistant(ms, a);
      return;
    }
    var ids := TrimmedIds(message.results);
    c := Closure({index as nat}, map[], {index as nat}, ids);
  }

  /** The search of replayClosureForMessage over the results of a tool message. */
  method FindOwner(ms: seq<Message>, index: nat) returns (a: int)
    requires index < |ms|
    ensures match FirstOwner(Bones(ms), index, 0)
            case Some(owner) => a == owner
            case None => a == -1
  {
    ghost var bs := Bones(ms);
    for j := 0 to |ms[index].results|
      invariant FirstOwner(bs, index, 0) == FirstOwner(bs, index, j)
    {
      var id := ms[index].results[j].callId.key;
      assert id == bs[index].answered[j];
      if id != "" {
        a := FindIssuer(ms, index, id);
        if a >= 0 {
          return;
        }
      }
    }
    a := -1;
  }

  method TrimmedIds(results: seq<ToolResult>) returns (ids: set<string>)
    ensures ids == (set k | 0 <= k < |results| :: Answered(results)[k]) - {""}
  {
    ids := {};
    for j := 0 to |results|
      invariant ids == (set k | 0 <= k < j :: Answered(results)[k]) - {""}
    {
      var id := results[j].callId.key;
      assert id == Answered(results)[j];
      if id != "" {
        ids := ids + {id};
      }
    }
  }

  method RetainResults(results: seq<ToolResult>, ids: set<string>) returns (kept: seq<ToolResult>)
    ensures kept == KeepResults(results, ids, |results|)
  {
    kept := [];
    for j := 0 to |results|
      invariant kept == KeepResults(results, ids, j)
    {
      if results[j].callId.key !in ids {
        kept := kept + [results[j]];
      }
    }
  }

  lemma Associate<T>(a: seq<T>, b: seq<T>, c: seq<T>)
    ensures a + (b + c) == (a + b) + c
  {
  }

  /** What applyReplayClosureRemoval leaves of one message. */
  method ThinMessage(m: Message, i: nat, c: Closure) returns (out: Option<Message>)
    ensures out == Thin(m, i, c)
  {
    if i in c.remove {
      return None;
    }
    if i in c.removeResults && c.removeResults[i] != {} && m.role == Tool {
      var results := RetainResults(m.results, c.removeResults[i]);
      if |results| == 0 && Blank(m) {
        return None;
      }
      return Some(m.(results := results));
    }
    out := Some(m);
  }

  /** applyReplayClosureRemoval. */
  method Remove(ms: seq<Message>, c: Closure) returns (out: seq<Message>)
    ensures out == Prune(ms, c, 0)
  {
    out := [];
    for i := 0 to |ms|
      invariant Prune(ms, c, 0) == out + Prune(ms, c, i)
    {
      var kept := ThinMessage(ms[i], i, c);
      Associate(out, if kept.Some? then [kept.value] else [], Prune(ms, c, i + 1));
      if kept.Some? {
        out := out + [kept.value];
      }
    }
  }

  /** A removal always shortens the view. */
  lemma RemovalShortens(ms: seq<Message>, index: nat)
    requires index < |ms|
    ensures |Prune(ms, MessageClosure(Bones(ms), index), 0)| < |ms|
  {
    var c := MessageClosure(Bones(ms), index);
    var gone := if Owner(Bones(ms), index).Some? then Owner(Bones(ms), index).value else index;
    assert gone in c.remove;
    PruneLength(ms, c, 0, gone);
  }

  lemma {:induction false} PruneLength(ms: seq<Message>, c: Closure, i: nat, gone: nat)
    requires i <= |ms|
    ensures |Prune(ms, c, i)| <= |ms| - i
    ensures i <= gone < |ms| && gone in c.remove ==> |Prune(ms, c, i)| < |ms| - i
    decreases |ms| - i
  {
    if i < |ms| {
      PruneLength(ms, c, i + 1, gone);
    }
  }

  /** The messages a closure touches determine it, so skipping a closure whose messages were already
      tried skips nothing else. */
  lemma TouchedDetermines(bs: seq<Bone>, i: nat, j: nat)
    requires i < |bs| && j < |bs|
    requires MessageClosure(bs, i).touched == MessageClosure(bs, j).touched
    ensures MessageClosure(bs, i) == MessageClosure(bs, j)
  {
    var a, b := Owner(bs, i), Owner(bs, j);
    assert (if a.Some? then a.value else i) in MessageClosure(bs, i).touched;
    assert (if b.Some? then b.value else j) in MessageClosure(bs, j).touched;
  }
}
