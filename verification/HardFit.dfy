/**
  The hard fit of a provider view: four kinds of shrinking steps, each accepted only when the
  adapter's next estimate is strictly smaller, until the view fits or nothing helps
  (internal/runtime/request_budget.go:270-486, 504-539, 717-774,
  internal/runtime/tool_result_dedup.go:86-110).
*/
module HardFit {
  import opened ReplayClosure
  import opened Protection
  import opened RequestBudget
  import opened Survival
  import Text

  // ---------- the index of calls ----------

  /** Message index and call index. */
  type At = (nat, nat)

  predicate IsCall(ms: seq<Message>, at: At) {
    at.0 < |ms| && ms[at.0].role == Assistant && at.1 < |ms[at.0].calls|
  }

  function CallAt(ms: seq<Message>, at: At): Call
    requires IsCall(ms, at)
  {
    ms[at.0].calls[at.1]
  }

  predicate HasAlias(c: Call, id: string) {
    id != "" && (c.id.key == id || c.providerId.key == id)
  }

  predicate Names(ms: seq<Message>, at: At, id: string) {
    IsCall(ms, at) && HasAlias(CallAt(ms, at), id)
  }

  /** `id` names the call at `at` and no other. */
  ghost predicate Sole(ms: seq<Message>, at: At, id: string) {
    Names(ms, at, id) && forall other: At :: Names(ms, other, id) ==> other == at
  }

  /** The state of the index once exactly the pairs in `seen` were added. */
  ghost predicate Indexes(byId: map<string, At>, ambiguous: set<string>, seen: iset<(At, string)>) {
    && (forall id :: id in byId ==> (byId[id], id) in seen && id !in ambiguous && OnlyAt(seen, byId[id], id))
    && (forall id :: id in ambiguous ==> Twice(seen, id))
    && (forall at: At, id: string :: (at, id) in seen ==> id in byId || id in ambiguous)
  }

  ghost predicate OnlyAt(seen: iset<(At, string)>, at: At, id: string) {
    forall other: At :: (other, id) in seen ==> other == at
  }

  ghost predicate Twice(seen: iset<(At, string)>, id: string) {
    exists a: At, b: At :: a != b && (a, id) in seen && (b, id) in seen
  }

  method AddAlias(byId: map<string, At>, ambiguous: set<string>, at: At, alias: Ident, ghost seen: iset<(At, string)>)
    returns (byId': map<string, At>, ambiguous': set<string>, ghost seen': iset<(At, string)>)
    requires Indexes(byId, ambiguous, seen)
    ensures seen' == seen + (if alias.key == "" then iset{} else iset{(at, alias.key)})
    ensures Indexes(byId', ambiguous', seen')
  {
    byId', ambiguous', seen' := byId, ambiguous, seen;
    var id := alias.key;
    if id == "" {
      return;
    }
    seen' := seen + iset{(at, id)};
    assert forall i :: Twice(seen, i) ==> Twice(seen', i);
    assert forall i, a :: i != id && OnlyAt(seen, a, i) ==> OnlyAt(seen', a, i);
    if id in ambiguous {
      return;
    }
    if id in byId && byId[id] != at {
      assert (byId[id], id) in seen' && (at, id) in seen';
      byId' := byId - {id};
      ambiguous' := ambiguous + {id};
      return;
    }
    byId' := byId[id := at];
  }

  /** The pairs added when message `i` is reached and `j` of its calls are done. */
  ghost function SeenBefore(ms: seq<Message>, i: nat, j: nat): iset<(At, string)> {
    iset at: At, id: string | Names(ms, at, id) && (at.0 < i || (at.0 == i && at.1 < j)) :: (at, id)
  }

  /** indexDedupToolCalls. */
  method IndexCalls(ms: seq<Message>) returns (byId: map<string, At>, ambiguous: set<string>)
    ensures forall id :: id in byId ==> Sole(ms, byId[id], id) && id !in ambiguous
    ensures forall at: At, id: string :: Names(ms, at, id) && id !in byId ==> id in ambiguous && !Sole(ms, at, id)
    ensures forall at: At, id: string :: id in ambiguous ==> !Sole(ms, at, id)
  {
    byId, ambiguous := map[], {};
    ghost var seen: iset<(At, string)> := iset{};
    for i := 0 to |ms|
      invariant seen == SeenBefore(ms, i, 0)
      invariant Indexes(byId, ambiguous, seen)
    {
      if ms[i].role != Assistant {
        assert SeenBefore(ms, i + 1, 0) == SeenBefore(ms, i, 0);
        continue;
      }
      for j := 0 to |ms[i].calls|
        invariant seen == SeenBefore(ms, i, j)
        invariant Indexes(byId, ambiguous, seen)
      {
        var call := ms[i].calls[j];
        byId, ambiguous, seen := AddAlias(byId, ambiguous, (i, j), call.id, seen);
        byId, ambiguous, seen := AddAlias(byId, ambiguous, (i, j), call.providerId, seen);
        SeenStep(ms, i, j);
      }
      assert SeenBefore(ms, i + 1, 0) == SeenBefore(ms, i, |ms[i].calls|);
    }
    IndexIsSole(ms, byId, ambiguous);
  }

  lemma SeenStep(ms: seq<Message>, i: nat, j: nat)
    requires IsCall(ms, (i, j))
    ensures
      var c := CallAt(ms, (i, j));
      SeenBefore(ms, i, j + 1) == SeenBefore(ms, i, j)
                                  + (if c.id.key == "" then iset{} else iset{((i, j), c.id.key)})
                                  + (if c.providerId.key == "" then iset{} else iset{((i, j), c.providerId.key)})
  {
  }

  lemma IndexIsSole(ms: seq<Message>, byId: map<string, At>, ambiguous: set<string>)
    requires Indexes(byId, ambiguous, SeenBefore(ms, |ms|, 0))
    ensures forall id :: id in byId ==> Sole(ms, byId[id], id) && id !in ambiguous
    ensures forall at: At, id: string :: Names(ms, at, id) && id !in byId ==> id in ambiguous && !Sole(ms, at, id)
    ensures forall at: At, id: string :: id in ambiguous ==> !Sole(ms, at, id)
  {
    var seen := SeenBefore(ms, |ms|, 0);
    assert forall at: At, id: string :: Names(ms, at, id) <==> (at, id) in seen;
    forall at: At, id: string | id in ambiguous
      ensures !Sole(ms, at, id)
    {
      assert Twice(seen, id);
      var a: At, b: At :| a != b && (a, id) in seen && (b, id) in seen;
      assert Names(ms, a, id) && Names(ms, b, id);
    }
    forall id | id in byId
      ensures Sole(ms, byId[id], id)
    {
      assert OnlyAt(seen, byId[id], id);
      forall other: At | Names(ms, other, id)
        ensures other == byId[id]
      {
        assert (other, id) in seen;
      }
    }
  }

  // ---------- pointers ----------

  /** The call a replay pointer for `r` may name. */
  ghost predicate Eligible(env: Env, ms: seq<Message>, r: ToolResult, at: At) {
    Sole(ms, at, r.callId.key) && CallAt(ms, at).name == r.name && env.readOnly(CallAt(ms, at))
  }

  /** The identity a replay pointer prints. */
  function ReplayName(c: Call): string {
    if c.id.key != "" then c.id.key else c.providerId.key
  }

  /** The result with a shorter text in place of its output, if the text is shorter. */
  function Shortened(r: ToolResult, text: string, replays: Option<string>): Option<ToolResult> {
    if Text.Bytes(text) >= Text.Bytes(r.output) then None
    else Some(r.(output := text, pointerized := true, replays := replays))
  }

  /** pointerizeRecoverableResultForHardFit on one result. */
  ghost function PointerOf(env: Env, ms: seq<Message>, r: ToolResult): Option<ToolResult> {
    if r.pointerized || r.duplicate || r.compacted || r.output == "" then None
    else if r.artifact.Some? then Shortened(r, env.artifactPointer(r), None)
    else if r.callId.key == "" || r.isError then None
    else if exists at: At :: Eligible(env, ms, r, at) then
      var at: At :| Eligible(env, ms, r, at);
      Shortened(r, env.replayPointer(r.name, ReplayName(CallAt(ms, at))), Some(ReplayName(CallAt(ms, at))))
    else None
  }

  /** What a pointer is and when it is made: of an untouched result, shorter than its output, naming either
      the complete artifact, or, for a result that is no error, the one call of its identity, which must be
      read-only and of the tool the result came from. */
  lemma PointerMeaning(env: Env, ms: seq<Message>, r: ToolResult, p: ToolResult)
    ensures PointerOf(env, ms, r) == Some(p) <==>
              && !r.pointerized && !r.duplicate && !r.compacted && r.output != ""
              && p == r.(output := p.output, pointerized := true, replays := p.replays)
              && Text.Bytes(p.output) < Text.Bytes(r.output)
              && if r.artifact.Some? then p.replays == None && p.output == env.artifactPointer(r)
                 else !r.isError && p.replays.Some? && exists at: At :: PointsAt(env, ms, r, p, at)
  {
    if r.artifact.None? && r.callId.key != "" && !r.isError {
      if at: At :| Eligible(env, ms, r, at) {
        forall other: At | Eligible(env, ms, r, other) || PointsAt(env, ms, r, p, other)
          ensures other == at
        {
          assert Names(ms, other, r.callId.key);
        }
        assert PointsAt(env, ms, r, p, at) <==>
                 && p.replays == Some(ReplayName(CallAt(ms, at)))
                 && p.output == env.replayPointer(r.name, ReplayName(CallAt(ms, at)));
      } else {
        forall at: At
          ensures !PointsAt(env, ms, r, p, at)
        {
          assert !Eligible(env, ms, r, at);
        }
      }
    }
  }

  /** Pointer `p` of `r` sends its reader to the call at `at`: no other call carries the identity that `r`
      answers, the call is read-only and of the same tool, and the pointer prints the call's own identity,
      or the provider's when it has none. */
  ghost predicate PointsAt(env: Env, ms: seq<Message>, r: ToolResult, p: ToolResult, at: At) {
    && Names(ms, at, r.callId.key) && (forall other: At :: Names(ms, other, r.callId.key) ==> other == at)
    && var call := CallAt(ms, at);
       && call.name == r.name && env.readOnly(call)
       && p.replays == Some(if call.id.key != "" then call.id.key else call.providerId.key)
       && p.output == env.replayPointer(r.name, p.replays.value)
  }

  /** The identity a pointer prints may name a second call: only where the result answers its call by
      the provider's identity, and the call has an identity of its own, which that other call carries. */
  lemma PrintedIdentityShared(env: Env, ms: seq<Message>, r: ToolResult, p: ToolResult, at: At, other: At)
    requires PointsAt(env, ms, r, p, at) && other != at && Names(ms, other, p.replays.value)
    ensures r.callId.key == CallAt(ms, at).providerId.key != CallAt(ms, at).id.key == p.replays.value
    ensures HasAlias(CallAt(ms, other), CallAt(ms, at).id.key)
  {
  }

  /** Such a view: two calls with the same identity, told apart by the provider's. */
  lemma PrintedIdentityMayBeShared(env: Env, name: string, arguments: string, output: string)
    returns (ms: seq<Message>, r: ToolResult, p: ToolResult, at: At, other: At)
    requires env.readOnly(Call(Ident("x", "x"), Ident("p", "p"), name, arguments))
    requires Text.Bytes(env.replayPointer(name, "x")) < Text.Bytes(output)
    ensures PointerOf(env, ms, r) == Some(p) && PointsAt(env, ms, r, p, at)
    ensures other != at && Names(ms, other, p.replays.value)
  {
    var call := Call(Ident("x", "x"), Ident("p", "p"), name, arguments);
    var assistant := Message("a", Assistant, OtherSource, false, "", [call, call.(providerId := Ident("q", "q"))], [], []);
    ms, at, other := [assistant], (0, 0), (0, 1);
    r := ToolResult(Ident("p", "p"), name, output, false, false, false, false, None, None);
    p := r.(output := env.replayPointer(name, "x"), pointerized := true, replays := Some("x"));
    assert Names(ms, at, "p");
    forall o: At | Names(ms, o, "p")
      ensures o == at
    {
      assert o.0 == 0 && (o.1 == 0 || o.1 == 1);
    }
    assert PointsAt(env, ms, r, p, at);
    assert output != "";
    PointerMeaning(env, ms, r, p);
    assert Names(ms, other, "x");
  }

  predicate IsResult(ms: seq<Message>, i: int, j: int) {
    0 <= i < |ms| && 0 <= j < |ms[i].results|
  }

  function WithResult(ms: seq<Message>, i: nat, j: nat, r: ToolResult): seq<Message>
    requires IsResult(ms, i, j)
  {
    ms[i := ms[i].(results := ms[i].results[j := r])]
  }

  ghost function PointerCandidate(env: Env, ms: seq<Message>, i: nat, j: nat): Option<seq<Message>>
    requires IsResult(ms, i, j)
  {
    match PointerOf(env, ms, ms[i].results[j])
    case None => None
    case Some(r) => Some(WithResult(ms, i, j, r))
  }

  /** pointerizeRecoverableResultForHardFit. */
  method PointerizeResult(env: Env, ms: seq<Message>, i: int, j: int) returns (out: Option<seq<Message>>)
    ensures out == if IsResult(ms, i, j) then PointerCandidate(env, ms, i, j) else None
  {
    if i < 0 || i >= |ms| || j < 0 || j >= |ms[i].results| {
      return None;
    }
    var r := ms[i].results[j];
    if r.pointerized || r.duplicate || r.compacted || r.output == "" {
      return None;
    }
    var pointed: Option<ToolResult>;
    if r.artifact.Some? {
      pointed := Shortened(r, env.artifactPointer(r), None);
    } else {
      pointed := PointerizeByReplay(env, ms, r);
    }
    match pointed {
      case None => out := None;
      case Some(p) => out := Some(WithResult(ms, i, j, p));
    }
  }

  method PointerizeByReplay(env: Env, ms: seq<Message>, r: ToolResult) returns (out: Option<ToolResult>)
    requires !r.pointerized && !r.duplicate && !r.compacted && r.output != "" && r.artifact.None?
    ensures out == PointerOf(env, ms, r)
  {
    var byId, ambiguous := IndexCalls(ms);
    var id := r.callId.key;
    if id == "" || id in ambiguous || r.isError {
      return None;
    }
    if id !in byId {
      assert forall at: At :: !Sole(ms, at, id);
      return None;
    }
    var at := byId[id];
    assert forall other: At :: Sole(ms, other, id) ==> other == at;
    var call := CallAt(ms, at);
    if call.name != r.name || !env.readOnly(call) {
      return None;
    }
    assert Eligible(env, ms, r, at);
    var replay := ReplayName(call);
    if replay == "" {
      return None;
    }
    out := Shortened(r, env.replayPointer(r.name, replay), Some(replay));
  }

  // ---------- what a step keeps ----------

  /** A result as it was, or its shorter pointer. */
  predicate ResultFrom(r: ToolResult, original: ToolResult) {
    || r == original
    || (&& r == original.(output := r.output, pointerized := true, replays := r.replays)
        && Text.Bytes(r.output) < Text.Bytes(original.output))
  }

  /** A message as it was, but for thinned or pointerized results and the text of a summary. */
  ghost predicate SameContent(m: Message, original: Message) {
    && m == original.(text := m.text, results := m.results)
    && (m.text == original.text || IsSummary(original))
    && (original.role != Tool ==> m.results == original.results)
    && forall r :: r in m.results ==> HasOriginal(r, original.results)
  }

  ghost predicate HasOriginal(r: ToolResult, results: seq<ToolResult>) {
    exists o :: o in results && ResultFrom(r, o)
  }

  ghost predicate Content(ms: seq<Message>, out: seq<Message>, kept: seq<nat>) {
    && |kept| == |out|
    && forall k :: 0 <= k < |out| ==> kept[k] < |ms| && SameContent(out[k], ms[kept[k]])
  }

  /** The call that a replay pointer names is in the view, issued the identities of the pointer and of its
      result, is the only one of the latter, and may be replayed in place of the output. */
  ghost predicate PointerOk(env: Env, ms: seq<Message>, r: ToolResult) {
    r.replays.Some? ==> exists at: At :: Resolves(env, ms, at, r)
  }

  ghost predicate Resolves(env: Env, ms: seq<Message>, at: At, r: ToolResult) {
    && r.replays.Some? && !r.isError
    && Sole(ms, at, r.callId.key) && HasAlias(CallAt(ms, at), r.replays.value)
    && CallAt(ms, at).name == r.name && env.readOnly(CallAt(ms, at))
  }

  ghost predicate MessageOk(env: Env, ms: seq<Message>, m: Message) {
    forall r :: r in m.results && r.replays.Some? ==> m.role == Tool && PointerOk(env, ms, r)
  }

  ghost predicate PointersOk(env: Env, ms: seq<Message>) {
    forall k :: 0 <= k < |ms| ==> MessageOk(env, ms, ms[k])
  }

  /** Everything one step, or a run of steps, keeps of the view it started from. */
  ghost predicate Fitted(env: Env, ms: seq<Message>, out: seq<Message>, kept: seq<nat>) {
    && Survives(Bones(ms), Bones(out), kept)
    && Content(ms, out, kept)
    && (PointersOk(env, ms) ==> PointersOk(env, out))
  }

  lemma ContentSelf(m: Message)
    ensures SameContent(m, m)
  {
    forall r | r in m.results
      ensures HasOriginal(r, m.results)
    {
      assert ResultFrom(r, r);
    }
  }

  lemma FittedUnchanged(env: Env, ms: seq<Message>)
    ensures Fitted(env, ms, ms, Identity(|ms|))
  {
    SurvivesUnchanged(Bones(ms));
    forall k | 0 <= k < |ms|
      ensures SameContent(ms[k], ms[k])
    {
      ContentSelf(ms[k]);
    }
  }

  lemma ContentTrans(a: Message, b: Message, c: Message)
    requires SameContent(b, a) && SameContent(c, b)
    ensures SameContent(c, a)
  {
    forall r | r in c.results
      ensures HasOriginal(r, a.results)
    {
      assert HasOriginal(r, b.results);
      var o :| o in b.results && ResultFrom(r, o);
      assert HasOriginal(o, a.results);
      var p :| p in a.results && ResultFrom(o, p);
      assert ResultFrom(r, p);
    }
  }

  /** Steps compose. */
  lemma FittedCompose(env: Env, a: seq<Message>, b: seq<Message>, c: seq<Message>, kb: seq<nat>, kc: seq<nat>)
    requires Fitted(env, a, b, kb) && Fitted(env, b, c, kc)
    ensures Fitted(env, a, c, Through(kb, kc))
  {
    SurvivesCompose(Bones(a), Bones(b), Bones(c), kb, kc);
    ContentCompose(a, b, c, kb, kc);
  }

  lemma ContentCompose(a: seq<Message>, b: seq<Message>, c: seq<Message>, kb: seq<nat>, kc: seq<nat>)
    requires Content(a, b, kb) && Content(b, c, kc)
    ensures Content(a, c, Through(kb, kc))
  {
    forall k | 0 <= k < |c|
      ensures SameContent(c[k], a[kb[kc[k]]])
    {
      ContentTrans(a[kb[kc[k]]], b[kc[k]], c[k]);
    }
  }

  // ---------- pointerizing ----------

  lemma {:induction false} ReplaceKeepsBones(ms: seq<Message>, i: nat, m: Message)
    requires i < |ms| && BoneOf(m) == BoneOf(ms[i])
    ensures Bones(ms[i := m]) == Bones(ms)
  {
  }

  lemma {:induction false} ReplaceKeepsContent(ms: seq<Message>, i: nat, m: Message)
    requires i < |ms| && SameContent(m, ms[i])
    ensures Content(ms, ms[i := m], Identity(|ms|))
  {
    forall k | 0 <= k < |ms|
      ensures SameContent(ms[i := m][k], ms[k])
    {
      ContentSelf(ms[k]);
    }
  }

  /** A change of one message that keeps its bone. */
  lemma {:induction false} ReplaceKeeps(ms: seq<Message>, i: nat, m: Message)
    requires i < |ms| && BoneOf(m) == BoneOf(ms[i]) && SameContent(m, ms[i])
    ensures Bones(ms[i := m]) == Bones(ms)
    ensures Survives(Bones(ms), Bones(ms[i := m]), Identity(|ms|))
    ensures Content(ms, ms[i := m], Identity(|ms|))
  {
    ReplaceKeepsBones(ms, i, m);
    SurvivesUnchanged(Bones(ms));
    ReplaceKeepsContent(ms, i, m);
  }

  lemma PointerKeepsMessage(env: Env, ms: seq<Message>, i: nat, j: nat)
    requires IsResult(ms, i, j) && ms[i].role == Tool && PointerOf(env, ms, ms[i].results[j]).Some?
    ensures
      var m := ms[i].(results := ms[i].results[j := PointerOf(env, ms, ms[i].results[j]).value]);
      BoneOf(m) == BoneOf(ms[i]) && SameContent(m, ms[i])
  {
    var before := ms[i].results;
    var p := PointerOf(env, ms, before[j]).value;
    var m := ms[i].(results := before[j := p]);
    assert Answered(m.results) == Answered(before);
    assert Issued(m) == Issued(ms[i]);
    assert ResultFrom(p, before[j]);
    forall r | r in m.results
      ensures HasOriginal(r, before)
    {
      if r == p {
        assert before[j] in before;
      } else {
        assert r in before && ResultFrom(r, r);
      }
    }
  }

  /** The calls of one message stay where they are. */
  lemma SameCallsResolve(env: Env, ms: seq<Message>, i: nat, m: Message, at: At, r: ToolResult)
    requires i < |ms| && m.role == ms[i].role && m.calls == ms[i].calls && Resolves(env, ms, at, r)
    ensures PointerOk(env, ms[i := m], r)
  {
    var out := ms[i := m];
    forall other: At | Names(out, other, r.callId.key)
      ensures other == at
    {
      assert Names(ms, other, r.callId.key);
    }
    assert Names(out, at, r.callId.key);
    assert Resolves(env, out, at, r);
  }

  lemma PointerResolves(env: Env, ms: seq<Message>, r: ToolResult)
    requires PointerOf(env, ms, r).Some? && PointerOf(env, ms, r).value.replays.Some?
    ensures PointerOk(env, ms, PointerOf(env, ms, r).value)
  {
    var p := PointerOf(env, ms, r).value;
    var at: At :| Eligible(env, ms, r, at) && p.replays == Some(ReplayName(CallAt(ms, at)));
    assert Resolves(env, ms, at, p);
  }

  lemma ReplaceKeepsMessage(env: Env, ms: seq<Message>, i: nat, m: Message, some: Message)
    requires i < |ms| && m.role == ms[i].role && m.calls == ms[i].calls && MessageOk(env, ms, some)
    ensures MessageOk(env, ms[i := m], some)
  {
    forall r | r in some.results && r.replays.Some?
      ensures PointerOk(env, ms[i := m], r)
    {
      assert PointerOk(env, ms, r);
      var at: At :| Resolves(env, ms, at, r);
      SameCallsResolve(env, ms, i, m, at, r);
    }
  }

  /** A change of one message that keeps its calls keeps every pointer it does not add. */
  lemma ReplaceKeepsPointers(env: Env, ms: seq<Message>, i: nat, m: Message)
    requires i < |ms| && m.role == ms[i].role && m.calls == ms[i].calls && PointersOk(env, ms) && MessageOk(env, ms, m)
    ensures PointersOk(env, ms[i := m])
  {
    var out := ms[i := m];
    forall k | 0 <= k < |out|
      ensures MessageOk(env, out, out[k])
    {
      ReplaceKeepsMessage(env, ms, i, m, out[k]);
    }
  }

  lemma PointerKeepsPointers(env: Env, ms: seq<Message>, i: nat, j: nat)
    requires IsResult(ms, i, j) && ms[i].role == Tool && PointerOf(env, ms, ms[i].results[j]).Some? && PointersOk(env, ms)
    ensures
      var m := ms[i].(results := ms[i].results[j := PointerOf(env, ms, ms[i].results[j]).value]);
      MessageOk(env, ms, m)
  {
    var p := PointerOf(env, ms, ms[i].results[j]).value;
    if p.replays.Some? {
      PointerResolves(env, ms, ms[i].results[j]);
    }
    forall r | r in ms[i].results[j := p] && r.replays.Some?
      ensures PointerOk(env, ms, r)
    {
      assert MessageOk(env, ms, ms[i]);
      assert r == p || r in ms[i].results;
    }
  }

  /** Replacing one output by a pointer keeps the view, and the new pointer names a call in it. */
  lemma PointerStep(env: Env, ms: seq<Message>, i: nat, j: nat)
    requires IsResult(ms, i, j) && ms[i].role == Tool && PointerCandidate(env, ms, i, j).Some?
    ensures Fitted(env, ms, PointerCandidate(env, ms, i, j).value, Identity(|ms|))
  {
    var p := PointerOf(env, ms, ms[i].results[j]).value;
    var m := ms[i].(results := ms[i].results[j := p]);
    PointerKeepsMessage(env, ms, i, j);
    ReplaceKeeps(ms, i, m);
    if PointersOk(env, ms) {
      PointerKeepsPointers(env, ms, i, j);
      ReplaceKeepsPointers(env, ms, i, m);
    }
  }

  // ---------- dropping ----------

  lemma ThinContent(m: Message, i: nat, c: Closure)
    requires Thin(m, i, c).Some?
    ensures SameContent(Thin(m, i, c).value, m)
    ensures forall r :: r in Thin(m, i, c).value.results ==> r in m.results
  {
    ThinKeeps(m, i, c);
    if i in c.removeResults {
      KeepResultsAll(m.results, c.removeResults[i]);
    }
    forall r | r in Thin(m, i, c).value.results
      ensures HasOriginal(r, m.results)
    {
      assert r in m.results && ResultFrom(r, r);
    }
  }

  /** The call a pointer of message `p` names survives a drop that keeps the pointer. */
  lemma {:induction false} PointerSurvives(env: Env, ms: seq<Message>, index: nat, p: nat, r: ToolResult)
    requires index < |ms| && p < |ms| && ms[p].role == Tool && PointerOk(env, ms, r) && r.replays.Some?
    requires
      var c := MessageClosure(Bones(ms), index);
      Thin(ms[p], p, c).Some? && r in Thin(ms[p], p, c).value.results
    ensures PointerOk(env, Prune(ms, MessageClosure(Bones(ms), index), 0), r)
  {
    var at: At :| Resolves(env, ms, at, r);
    AliasIsIssued(ms, at, r.callId.key);
    RetainedResultKeepsIssuers(ms, index, p, r, at.0);
    KeptResolves(env, ms, MessageClosure(Bones(ms), index), at, r);
  }

  lemma DropKeepsMessage(env: Env, ms: seq<Message>, index: nat, k: nat)
    requires index < |ms| && PointersOk(env, ms) && k < |Prune(ms, MessageClosure(Bones(ms), index), 0)|
    ensures
      var out := Prune(ms, MessageClosure(Bones(ms), index), 0);
      MessageOk(env, out, out[k])
  {
    var c := MessageClosure(Bones(ms), index);
    KeptMeaning(ms, c, 0);
    var p := Kept(ms, c, 0)[k];
    ThinContent(ms[p], p, c);
    assert MessageOk(env, ms, ms[p]);
    forall r | r in Prune(ms, c, 0)[k].results && r.replays.Some?
      ensures ms[p].role == Tool && PointerOk(env, Prune(ms, c, 0), r)
    {
      PointerSurvives(env, ms, index, p, r);
    }
  }

  /** A call of the smaller view is a call of the view it was made from. */
  lemma {:induction false} KeptNames(ms: seq<Message>, c: Closure, other: At, id: string)
    requires Names(Prune(ms, c, 0), other, id)
    ensures |Kept(ms, c, 0)| == |Prune(ms, c, 0)| && Names(ms, (Kept(ms, c, 0)[other.0], other.1), id)
  {
    KeptMeaning(ms, c, 0);
    var p := Kept(ms, c, 0)[other.0];
    ThinKeeps(ms[p], p, c);
  }

  lemma {:induction false} KeptResolves(env: Env, ms: seq<Message>, c: Closure, at: At, r: ToolResult)
    requires Resolves(env, ms, at, r) && Thin(ms[at.0], at.0, c) == Some(ms[at.0])
    ensures PointerOk(env, Prune(ms, c, 0), r)
  {
    KeptMeaning(ms, c, 0);
    var kept, out := Kept(ms, c, 0), Prune(ms, c, 0);
    assert at.0 in kept;
    var q :| 0 <= q < |kept| && kept[q] == at.0;
    assert out[q] == ms[at.0];
    forall other: At | Names(out, other, r.callId.key)
      ensures other == (q, at.1)
    {
      KeptNames(ms, c, other, r.callId.key);
      assert (kept[other.0], other.1) == at;
      assert !(other.0 < q) && !(q < other.0);
    }
    assert Names(out, (q, at.1), r.callId.key);
    assert Resolves(env, out, (q, at.1), r);
  }

  lemma DropContent(ms: seq<Message>, c: Closure)
    ensures Content(ms, Prune(ms, c, 0), Kept(ms, c, 0))
  {
    var out, kept := Prune(ms, c, 0), Kept(ms, c, 0);
    KeptMeaning(ms, c, 0);
    forall k | 0 <= k < |out|
      ensures SameContent(out[k], ms[kept[k]])
    {
      ThinContent(ms[kept[k]], kept[k], c);
    }
  }

  lemma DropKeepsPointers(env: Env, ms: seq<Message>, index: nat)
    requires index < |ms| && PointersOk(env, ms)
    ensures PointersOk(env, Prune(ms, MessageClosure(Bones(ms), index), 0))
  {
    var out := Prune(ms, MessageClosure(Bones(ms), index), 0);
    forall k | 0 <= k < |out|
      ensures MessageOk(env, out, out[k])
    {
      DropKeepsMessage(env, ms, index, k);
    }
  }

  lemma AliasIsIssued(ms: seq<Message>, at: At, id: string)
    requires Names(ms, at, id)
    ensures Issues(BoneOf(ms[at.0]), id)
  {
    CallKeysHave(ms[at.0].calls, |ms[at.0].calls|, at.1);
  }

  /** Dropping an admitted closure keeps the view, and no remaining pointer dangles. */
  lemma DropStep(env: Env, ms: seq<Message>, index: nat)
    requires Droppable(Bones(ms), index)
    ensures
      var c := MessageClosure(Bones(ms), index);
      Fitted(env, ms, Prune(ms, c, 0), Kept(ms, c, 0))
  {
    DropSurvives(ms, index);
    DropContent(ms, MessageClosure(Bones(ms), index));
    if PointersOk(env, ms) {
      DropKeepsPointers(env, ms, index);
    }
  }

  // ---------- rewriting summaries ----------

  datatype Kind = Pointerize | Drop | DropSemantic | ReduceSummary

  /** The text that dropping the semantic summary, or reducing to the core, puts after the marker. */
  function Rewritten(env: Env, kind: Kind, m: Message): Option<string> {
    if !IsSummary(m) then None
    else if kind == DropSemantic then env.withoutSemantic(m.text)
    else match env.core(m.text)
      case None => None
      case Some(text) => if text == m.text || Text.Bytes(text) >= Text.Bytes(m.text) then None else Some(text)
  }

  /** When a summary is rewritten, and to what: the semantic part is dropped, or the text is reduced to its
      core if that is shorter. */
  lemma RewrittenIff(env: Env, kind: Kind, m: Message, text: string)
    ensures Rewritten(env, kind, m) == Some(text) <==>
              && (m.source == CompactionSummary || m.marked)
              && if kind.DropSemantic? then env.withoutSemantic(m.text) == Some(text)
                 else env.core(m.text) == Some(text) && Text.Bytes(text) < Text.Bytes(m.text)
  {
  }

  function SummaryCandidate(env: Env, kind: Kind, ms: seq<Message>, i: nat): Option<seq<Message>>
    requires i < |ms|
  {
    match Rewritten(env, kind, ms[i])
    case None => None
    case Some(text) => Some(ms[i := ms[i].(text := text)])
  }

  lemma RewriteKeepsMessage(m: Message, text: string)
    requires IsSummary(m)
    ensures BoneOf(m.(text := text)) == BoneOf(m) && SameContent(m.(text := text), m)
  {
    ContentSelf(m);
    assert Issued(m.(text := text)) == Issued(m);
  }

  lemma SummaryStep(env: Env, kind: Kind, ms: seq<Message>, i: nat)
    requires i < |ms| && SummaryCandidate(env, kind, ms, i).Some?
    ensures Fitted(env, ms, SummaryCandidate(env, kind, ms, i).value, Identity(|ms|))
  {
    var m := ms[i].(text := Rewritten(env, kind, ms[i]).value);
    RewriteKeepsMessage(ms[i], m.text);
    ReplaceKeeps(ms, i, m);
    if PointersOk(env, ms) {
      assert MessageOk(env, ms, ms[i]) && MessageOk(env, ms, m);
      ReplaceKeepsPointers(env, ms, i, m);
    }
  }
}
