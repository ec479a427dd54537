/**
  The recent-message windows of compaction: backward scans that keep the newest messages, the latest
  external instruction and the assistants that issued what the kept tool messages answer
  (internal/runtime/compaction.go:498-592, 691-734).
*/
module RecentWindow {
  import opened ReplayClosure
  import Protection

  /** How many messages a window keeps at least, and, for a budgeted window, the size of a message
      and the number of characters it may use. */
  datatype Policy = Policy(minCount: int, budget: int, size: Message -> nat)

  datatype State = State(keep: set<nat>, pending: set<string>, recent: nat, used: int)

  /** The identities a tool message leaves pending, as they are written. */
  function Asked(results: seq<ToolResult>, n: nat): set<string>
    requires n <= |results|
  {
    if n == 0 then {}
    else Asked(results, n - 1) + (if results[n - 1].callId.key != "" then {results[n - 1].callId.raw} else {})
  }

  function Pending(pending: set<string>, m: Message): set<string> {
    match m.role
    case Tool => pending + Asked(m.results, |m.results|)
    case Assistant => pending - Issued(m)
    case _ => pending
  }

  predicate Matches(m: Message, pending: set<string>) {
    m.role == Assistant && !(Issued(m) !! pending)
  }

  predicate MustKeep(p: Policy, s: State, i: nat, m: Message) {
    i in s.keep || s.recent < p.minCount || s.used < p.budget || Matches(m, s.pending)
  }

  /** One step of the backward scan. */
  function Next(p: Policy, s: State, i: nat, m: Message): State {
    if !MustKeep(p, s, i, m) then s
    else
      State(s.keep + {i}, Pending(s.pending, m), s.recent + 1, if i in s.keep then s.used else s.used + p.size(m))
  }

  function Start(ms: seq<Message>, p: Policy): State {
    match Protection.LastIndex(Bones(ms), Protection.IsInstruction, |ms|)
    case None => State({}, {}, 0, 0)
    case Some(i) => State({i}, {}, 0, p.size(ms[i]))
  }

  /** The scan once the messages from `i` on are done. */
  function Scan(ms: seq<Message>, p: Policy, start: State, i: nat): State
    requires i <= |ms|
    decreases |ms| - i
  {
    if i == |ms| then start else Next(p, Scan(ms, p, start, i + 1), i, ms[i])
  }

  function UpTo(n: nat): (s: set<nat>)
    ensures forall i: nat :: i in s <==> i < n
  {
    if n == 0 then {} else UpTo(n - 1) + {n - 1}
  }

  /** The messages a window keeps. */
  function Keep(ms: seq<Message>, p: Policy): set<nat> {
    if |ms| <= p.minCount then UpTo(|ms|) else Scan(ms, p, Start(ms, p), 0).keep
  }

  /** The messages at the chosen positions, in order. */
  function Pick(ms: seq<Message>, chosen: set<nat>, n: nat): seq<Message>
    requires n <= |ms|
  {
    if n == 0 then [] else Pick(ms, chosen, n - 1) + (if n - 1 in chosen then [ms[n - 1]] else [])
  }

  /** A plain window is one without a budget. */
  function Plain(p: Policy): Policy {
    p.(budget := 0)
  }

  function Window(ms: seq<Message>, p: Policy): seq<Message> {
    Pick(ms, Keep(ms, if p.budget <= 0 then Plain(p) else p), |ms|)
  }

  // ---------- what a scan keeps ----------

  /** A scan only adds. */
  lemma {:induction false} ScanGrows(ms: seq<Message>, p: Policy, start: State, i: nat, j: nat)
    requires i <= j <= |ms|
    ensures Scan(ms, p, start, j).keep <= Scan(ms, p, start, i).keep
    decreases j - i
  {
    if i < j {
      ScanGrows(ms, p, start, i + 1, j);
    }
  }

  /** It keeps nothing but what it started with and what it has passed. */
  lemma {:induction false} ScanInRange(ms: seq<Message>, p: Policy, start: State, i: nat, k: nat)
    requires i <= |ms| && k in Scan(ms, p, start, i).keep
    ensures k in start.keep || i <= k < |ms|
    decreases |ms| - i
  {
    if i < |ms| {
      if k in Scan(ms, p, start, i + 1).keep {
        ScanInRange(ms, p, start, i + 1, k);
      }
    }
  }

  /** As long as fewer than `minCount` messages are kept, every message passed is one of them. */
  lemma {:induction false} ScanCounts(ms: seq<Message>, p: Policy, start: State, i: nat)
    requires i <= |ms| && start.recent == 0
    ensures Scan(ms, p, start, i).recent <= |ms| - i
    ensures Scan(ms, p, start, i).recent < p.minCount ==> Scan(ms, p, start, i).recent == |ms| - i
    decreases |ms| - i
  {
    if i < |ms| {
      ScanCounts(ms, p, start, i + 1);
    }
  }

  /** The last `minCount` messages are kept. */
  lemma KeepsNewest(ms: seq<Message>, p: Policy, k: nat)
    requires k < |ms| && |ms| - k <= p.minCount
    ensures k in Keep(ms, p)
  {
    if |ms| > p.minCount {
      var start := Start(ms, p);
      ScanCounts(ms, p, start, k + 1);
      ScanGrows(ms, p, start, 0, k);
    }
  }

  /** The latest external instruction is kept. */
  lemma KeepsInstruction(ms: seq<Message>, p: Policy)
    ensures
      var latest := Protection.LastIndex(Bones(ms), Protection.IsInstruction, |ms|);
      latest.Some? ==> latest.value in Keep(ms, p)
  {
    if |ms| > p.minCount {
      ScanGrows(ms, p, Start(ms, p), 0, |ms|);
    }
  }

  lemma {:induction false} AskedHas(results: seq<ToolResult>, n: nat, r: ToolResult)
    requires n <= |results| && r in results[..n] && r.callId.key != ""
    ensures r.callId.raw in Asked(results, n)
  {
    if r != results[n - 1] {
      assert results[..n] == results[..n - 1] + [results[n - 1]];
      AskedHas(results, n - 1, r);
    }
  }

  /** A pending identity stays pending until an assistant that issued it. */
  lemma {:induction false} StaysPending(ms: seq<Message>, p: Policy, start: State, id: string, i: nat, j: nat)
    requires i <= j <= |ms| && id in Scan(ms, p, start, j).pending
    requires forall k :: i <= k < j ==> !Issues(BoneOf(ms[k]), id)
    ensures id in Scan(ms, p, start, i).pending
    decreases j - i
  {
    if i < j {
      StaysPending(ms, p, start, id, i + 1, j);
      assert !Issues(BoneOf(ms[i]), id);
    }
  }

  /** The nearest assistant that issued what a kept tool message answers is kept, for an identity
      that is written without surrounding white space. */
  lemma KeepsIssuer(ms: seq<Message>, p: Policy, k: nat, r: ToolResult)
    requires k < |ms| && k in Keep(ms, p) && ms[k].role == Tool && r in ms[k].results
    requires r.callId.key != "" && r.callId.raw == r.callId.key
    ensures
      var issuer := NearestIssuer(Bones(ms), k, r.callId.key);
      issuer.Some? ==> issuer.value in Keep(ms, p)
  {
    var bs, id := Bones(ms), r.callId.key;
    var issuer := NearestIssuer(bs, k, id);
    if issuer.Some? && |ms| > p.minCount {
      NearestIssuerMeaning(bs, k, id);
      forall q | issuer.value < q < k
        ensures !Issues(BoneOf(ms[q]), id)
      {
        assert bs[q] == BoneOf(ms[q]);
      }
      ScanKeepsIssuer(ms, p, Start(ms, p), k, r, issuer.value);
    }
  }

  lemma ScanKeepsIssuer(ms: seq<Message>, p: Policy, start: State, k: nat, r: ToolResult, a: nat)
    requires a < k < |ms| && k in Scan(ms, p, start, 0).keep && ms[k].role == Tool && r in ms[k].results
    requires r.callId.key != "" && r.callId.raw == r.callId.key
    requires Issues(BoneOf(ms[a]), r.callId.key) && forall q :: a < q < k ==> !Issues(BoneOf(ms[q]), r.callId.key)
    ensures a in Scan(ms, p, start, 0).keep
  {
    KeptWhenPassed(ms, p, start, 0, k);
    assert ms[k].results[..|ms[k].results|] == ms[k].results;
    AskedHas(ms[k].results, |ms[k].results|, r);
    StaysPending(ms, p, start, r.callId.key, a + 1, k);
    IssuerMatches(ms[a], r.callId.key, Scan(ms, p, start, a + 1).pending);
    ScanGrows(ms, p, start, 0, a);
  }

  lemma IssuerMatches(m: Message, id: string, pending: set<string>)
    requires Issues(BoneOf(m), id) && id in pending
    ensures Matches(m, pending)
  {
  }

  /** A kept message was kept when the scan passed it. */
  lemma {:induction false} KeptWhenPassed(ms: seq<Message>, p: Policy, start: State, i: nat, k: nat)
    requires i <= k < |ms| && k in Scan(ms, p, start, i).keep
    ensures MustKeep(p, Scan(ms, p, start, k + 1), k, ms[k])
    decreases k - i
  {
    if i < k {
      KeptWhenPassed(ms, p, start, i + 1, k);
    }
  }

  /** An identity written with surrounding white space is never matched: there is a view in which its
      tool message is kept and the assistant that issued it is not. */
  lemma UntrimmedLosesIssuer(id: Ident) returns (ms: seq<Message>, p: Policy)
    requires id.key != "" && id.raw != id.key
    ensures |ms| == 2 && ms[1].role == Tool && |ms[1].results| == 1 && ms[1].results[0].callId == id
    ensures NearestIssuer(Bones(ms), 1, id.key) == Some(0)
    ensures 1 in Keep(ms, p) && 0 !in Keep(ms, p)
  {
    var call := Call(id, Ident("", ""), "read_file", "");
    var issuer := Message("m0", Assistant, OtherSource, false, "", [call], [], []);
    var answer := Message("m1", Tool, OtherSource, false, "", [], [ToolResult(id, "read_file", "x", false, false, false, false, None, None)], []);
    ms, p := [issuer, answer], Policy(1, 0, m => 1);
    var bs := Bones(ms);
    assert CallKeys([call], 1) == {id.key, ""} by {
      assert CallKeys([call], 0) == {};
    }
    assert Issued(issuer) == {id.key};
    assert bs[0].role == Assistant && bs[1].role == Tool;
    assert Protection.LastIndex(bs, Protection.IsInstruction, 0) == None;
    assert Protection.LastIndex(bs, Protection.IsInstruction, 1) == None;
    assert Protection.LastIndex(bs, Protection.IsInstruction, 2) == None;
    var start := Start(ms, p);
    assert start == State({}, {}, 0, 0);
    assert Scan(ms, p, start, 2) == start;
    assert Asked(answer.results, 0) == {} && Asked(answer.results, 1) == {id.raw};
    assert Scan(ms, p, start, 1) == State({1}, {id.raw}, 1, 1);
    assert Issued(issuer) !! {id.raw};
    assert Scan(ms, p, start, 0) == Scan(ms, p, start, 1);
  }

  // ---------- exactly what a window keeps ----------

  /** How many of the messages from `i` on are kept. */
  function KeptFrom(ms: seq<Message>, kept: set<nat>, i: nat): nat
    requires i <= |ms|
    decreases |ms| - i
  {
    if i == |ms| then 0 else KeptFrom(ms, kept, i + 1) + (if i in kept then 1 else 0)
  }

  /** The size of the messages kept from `i` on, but for the latest instruction. */
  function SizeFrom(ms: seq<Message>, p: Policy, kept: set<nat>, i: nat): nat
    requires i <= |ms|
    decreases |ms| - i
  {
    if i == |ms| then 0
    else SizeFrom(ms, p, kept, i + 1) + (if i in kept && !Protection.LatestInstructionAt(ms, i) then p.size(ms[i]) else 0)
  }

  function InstructionSize(ms: seq<Message>, p: Policy): nat {
    match Protection.LastIndex(Bones(ms), Protection.IsInstruction, |ms|)
    case None => 0
    case Some(i) => p.size(ms[i])
  }

  predicate AsksFor(m: Message, id: string) {
    m.role == Tool && exists j :: 0 <= j < |m.results| && m.results[j].callId.key != "" && m.results[j].callId.raw == id
  }

  /** A kept tool message from `i` on answers `id`, as it is written, and no kept assistant before it, from
      `i` on, carries that call. */
  predicate AwaitedFrom(ms: seq<Message>, kept: set<nat>, i: nat, id: string) {
    exists j :: i <= j < |ms| && j in kept && AsksFor(ms[j], id) &&
      forall q :: i <= q < j && q in kept && ms[q].role == Assistant ==> !CarriesCall(ms[q], id)
  }

  lemma {:induction false} AskedMeaning(results: seq<ToolResult>, n: nat, id: string)
    requires n <= |results|
    ensures id in Asked(results, n) <==> exists j :: 0 <= j < n && results[j].callId.key != "" && results[j].callId.raw == id
  {
    if n > 0 {
      AskedMeaning(results, n - 1, id);
    }
  }

  /** What the scan has passed, it decided for good. */
  lemma {:induction false} Decided(ms: seq<Message>, p: Policy, start: State, i: nat, j: nat)
    requires i <= j < |ms|
    ensures j in Scan(ms, p, start, i).keep <==> j in Scan(ms, p, start, j).keep
    decreases j - i
  {
    if i < j {
      Decided(ms, p, start, i + 1, j);
    }
  }

  lemma {:induction false} CountsKept(ms: seq<Message>, p: Policy, i: nat)
    requires i <= |ms|
    ensures
      var s, kept := Scan(ms, p, Start(ms, p), i), Scan(ms, p, Start(ms, p), 0).keep;
      s.recent == KeptFrom(ms, kept, i) && s.used == InstructionSize(ms, p) + SizeFrom(ms, p, kept, i)
    decreases |ms| - i
  {
    if i < |ms| {
      CountsKept(ms, p, i + 1);
      Decided(ms, p, Start(ms, p), 0, i);
      InstructionIsKept(ms, p, i);
    }
  }

  lemma StartKeeps(ms: seq<Message>, p: Policy, i: nat)
    requires i < |ms|
    ensures i in Start(ms, p).keep <==> Protection.LatestInstructionAt(ms, i)
  {
    Protection.InstructionIsLast(ms, i);
  }

  lemma BeforePassing(ms: seq<Message>, p: Policy, start: State, i: nat)
    requires i < |ms|
    ensures i in Scan(ms, p, start, i + 1).keep <==> i in start.keep
  {
    ScanGrows(ms, p, start, i + 1, |ms|);
    if i in Scan(ms, p, start, i + 1).keep {
      ScanInRange(ms, p, start, i + 1, i);
    }
  }

  /** Before the scan passes a message, only the latest instruction is kept already. */
  lemma InstructionIsKept(ms: seq<Message>, p: Policy, i: nat)
    requires i < |ms|
    ensures i in Scan(ms, p, Start(ms, p), i + 1).keep <==> Protection.LatestInstructionAt(ms, i)
  {
    StartKeeps(ms, p, i);
    BeforePassing(ms, p, Start(ms, p), i);
  }

  lemma {:induction false} PendingIsAwaited(ms: seq<Message>, p: Policy, i: nat, id: string)
    requires i <= |ms|
    ensures id in Scan(ms, p, Start(ms, p), i).pending <==> AwaitedFrom(ms, Scan(ms, p, Start(ms, p), 0).keep, i, id)
    decreases |ms| - i
  {
    if i < |ms| {
      PendingIsAwaited(ms, p, i + 1, id);
      Decided(ms, p, Start(ms, p), 0, i);
      AwaitedStep(ms, Scan(ms, p, Start(ms, p), 0).keep, i, id);
      PendingStep(p, Scan(ms, p, Start(ms, p), i + 1), i, ms[i], id);
    }
  }

  lemma AwaitedStep(ms: seq<Message>, kept: set<nat>, i: nat, id: string)
    requires i < |ms|
    ensures AwaitedFrom(ms, kept, i, id) <==>
              || (i in kept && AsksFor(ms[i], id))
              || (AwaitedFrom(ms, kept, i + 1, id) && !(i in kept && ms[i].role == Assistant && CarriesCall(ms[i], id)))
  {
  }

  lemma {:induction false} PendingStep(p: Policy, s: State, i: nat, m: Message, id: string)
    ensures
      var t := Next(p, s, i, m);
      id in t.pending <==>
        || (MustKeep(p, s, i, m) && AsksFor(m, id))
        || (id in s.pending && !(MustKeep(p, s, i, m) && m.role == Assistant && CarriesCall(m, id)))
    ensures i in Next(p, s, i, m).keep <==> MustKeep(p, s, i, m)
  {
    AskedMeaning(m.results, |m.results|, id);
    IssuedMeaning(m, id);
  }

  /** Exactly which messages a window of a longer view keeps: the latest external instruction; every message
      with fewer than `minCount` kept after it; every message the budget still had room for, the
      instruction and those kept after it being counted; and every assistant that carries a call which a
      kept tool message awaits. */
  lemma {:induction false} KeptIff(ms: seq<Message>, p: Policy, k: nat)
    requires k < |ms| && |ms| > p.minCount
    ensures k in Keep(ms, p) <==>
              || Protection.LatestInstructionAt(ms, k)
              || KeptFrom(ms, Keep(ms, p), k + 1) < p.minCount
              || InstructionSize(ms, p) + SizeFrom(ms, p, Keep(ms, p), k + 1) < p.budget
              || (ms[k].role == Assistant && exists id :: CarriesCall(ms[k], id) && AwaitedFrom(ms, Keep(ms, p), k + 1, id))
  {
    var s := Scan(ms, p, Start(ms, p), k + 1);
    CountsKept(ms, p, k + 1);
    Decided(ms, p, Start(ms, p), 0, k);
    InstructionIsKept(ms, p, k);
    PendingStep(p, s, k, ms[k], "");
    forall id
      ensures id in s.pending <==> AwaitedFrom(ms, Keep(ms, p), k + 1, id)
      ensures id in Issued(ms[k]) <==> CarriesCall(ms[k], id)
    {
      PendingIsAwaited(ms, p, k + 1, id);
      IssuedMeaning(ms[k], id);
    }
    assert Issued(ms[k]) !! s.pending <==> forall id :: id in Issued(ms[k]) ==> id !in s.pending;
  }

  // ---------- plain and budgeted ----------

  /** Whatever is pending in the plain scan is pending in the budgeted one. */
  lemma {:induction false} PlainWithin(ms: seq<Message>, p: Policy, plain: State, budgeted: State, i: nat)
    requires i <= |ms| && plain.keep == budgeted.keep && plain.pending == budgeted.pending == {}
    requires plain.recent == budgeted.recent == 0 && 0 <= plain.used
    ensures
      var s, t := Scan(ms, Plain(p), plain, i), Scan(ms, p, budgeted, i);
      s.keep <= t.keep && s.pending <= t.pending && 0 <= s.used
    decreases |ms| - i
  {
    if i < |ms| {
      PlainWithin(ms, p, plain, budgeted, i + 1);
      ScanCounts(ms, Plain(p), plain, i + 1);
      ScanCounts(ms, p, budgeted, i + 1);
      var s, t := Scan(ms, Plain(p), plain, i + 1), Scan(ms, p, budgeted, i + 1);
      NextWithin(p, s, t, i, ms[i]);
    }
  }

  lemma NextWithin(p: Policy, s: State, t: State, i: nat, m: Message)
    requires s.keep <= t.keep && s.pending <= t.pending && 0 <= s.used
    requires s.recent < p.minCount ==> t.recent <= s.recent
    ensures
      var s', t' := Next(Plain(p), s, i, m), Next(p, t, i, m);
      s'.keep <= t'.keep && s'.pending <= t'.pending && 0 <= s'.used
  {
  }

  /** The budgeted window keeps everything the plain one keeps. */
  lemma BudgetedKeepsPlain(ms: seq<Message>, p: Policy)
    ensures Keep(ms, Plain(p)) <= Keep(ms, p)
  {
    if |ms| > p.minCount {
      PlainWithin(ms, p, Start(ms, Plain(p)), Start(ms, p), 0);
    }
  }

  // ---------- the procedures ----------

  method AddAsked(results: seq<ToolResult>, pending0: set<string>) returns (pending: set<string>)
    ensures pending == pending0 + Asked(results, |results|)
  {
    pending := pending0;
    for j := 0 to |results|
      invariant pending == pending0 + Asked(results, j)
    {
      if results[j].callId.key != "" {
        pending := pending + {results[j].callId.raw};
      }
    }
  }

  method MatchesPending(m: Message, pending: set<string>) returns (found: bool)
    ensures found == Matches(m, pending)
  {
    if m.role != Assistant || |pending| == 0 {
      return false;
    }
    var ids := CallIds(m);
    for j := 0 to |ids|
      invariant forall k :: 0 <= k < j ==> ids[k] !in pending
    {
      if ids[j] in pending {
        return true;
      }
    }
    found := false;
  }

  method Settle(m: Message, pending: set<string>) returns (next: set<string>)
    ensures next == Pending(pending, m)
  {
    next := pending;
    if m.role == Tool {
      next := AddAsked(m.results, next);
    }
    if m.role == Assistant {
      var ids := CallIds(m);
      for j := 0 to |ids|
        invariant next == pending - (set k | 0 <= k < j :: ids[k])
      {
        next := next - {ids[j]};
      }
      assert (set k | 0 <= k < |ids| :: ids[k]) == Issued(m);
    }
  }

  /** One turn of either loop. */
  method Visit(ghost p: Policy, minCount: int, ghost s: State, i: nat, m: Message, kept: bool, recent: nat, withinBudget: bool, pending: set<string>)
    returns (take: bool, recent': nat, pending': set<string>, ghost s': State)
    requires minCount == p.minCount && kept == (i in s.keep) && recent == s.recent && pending == s.pending && withinBudget == (s.used < p.budget)
    ensures take == MustKeep(p, s, i, m) && s' == Next(p, s, i, m)
    ensures recent' == s'.recent && pending' == s'.pending
  {
    take, recent', pending', s' := false, recent, pending, Next(p, s, i, m);
    var matched := MatchesPending(m, pending);
    if kept || recent < minCount || withinBudget || matched {
      take, recent' := true, recent + 1;
      pending' := Settle(m, pending);
    }
  }

  method Chosen(ms: seq<Message>, keep: array<bool>) returns (out: seq<Message>)
    requires keep.Length == |ms|
    ensures forall chosen: set<nat> :: (forall i :: 0 <= i < |ms| ==> keep[i] == (i in chosen)) ==> out == Pick(ms, chosen, |ms|)
  {
    out := [];
    for i := 0 to |ms|
      invariant forall chosen: set<nat> :: (forall k :: 0 <= k < |ms| ==> keep[k] == (k in chosen)) ==> out == Pick(ms, chosen, i)
    {
      if keep[i] {
        out := out + [ms[i]];
      }
    }
  }

  lemma {:induction false} PickAll(ms: seq<Message>, chosen: set<nat>, n: nat)
    requires n <= |ms| && forall i :: 0 <= i < |ms| ==> i in chosen
    ensures Pick(ms, chosen, n) == ms[..n]
  {
    if n > 0 {
      PickAll(ms, chosen, n - 1);
      assert ms[..n] == ms[..n - 1] + [ms[n - 1]];
    }
  }

  /** The loop of recentMessagesForCompaction. */
  method ScanPlain(ms: seq<Message>, keep: array<bool>, minCount: int, ghost p: Policy, ghost start: State)
    requires keep.Length == |ms| && minCount == p.minCount && start.pending == {} && start.recent == 0 && 0 <= start.used && p.budget <= 0
    requires forall k :: 0 <= k < |ms| ==> keep[k] == (k in start.keep)
    modifies keep
    ensures forall k :: 0 <= k < |ms| ==> keep[k] == (k in Scan(ms, p, start, 0).keep)
  {
    var pending, recent := {}, 0;
    ghost var s := start;
    var i := |ms|;
    while i > 0
      invariant 0 <= i <= |ms| && s == Scan(ms, p, start, i)
      invariant forall k :: 0 <= k < |ms| ==> keep[k] == (k in s.keep)
      invariant pending == s.pending && recent == s.recent && 0 <= s.used
    {
      i := i - 1;
      var take;
      take, recent, pending, s := Visit(p, minCount, s, i, ms[i], keep[i], recent, false, pending);
      if take {
        keep[i] := true;
      }
    }
  }

  /** The loop of recentMessagesWithinBudget. */
  method ScanBudgeted(ms: seq<Message>, keep: array<bool>, minCount: int, budget: int, used0: int, size: Message -> nat, ghost p: Policy, ghost start: State)
    requires keep.Length == |ms| && minCount == p.minCount && start.pending == {} && start.recent == 0 && start.used == used0
    requires p == Policy(minCount, budget, size)
    requires forall k :: 0 <= k < |ms| ==> keep[k] == (k in start.keep)
    modifies keep
    ensures forall k :: 0 <= k < |ms| ==> keep[k] == (k in Scan(ms, p, start, 0).keep)
  {
    var pending, recent := {}, 0;
    var used := used0;
    ghost var s := start;
    var i := |ms|;
    while i > 0
      invariant 0 <= i <= |ms| && s == Scan(ms, p, start, i)
      invariant forall k :: 0 <= k < |ms| ==> keep[k] == (k in s.keep)
      invariant pending == s.pending && recent == s.recent && used == s.used
    {
      i := i - 1;
      var take;
      take, recent, pending, s := Visit(p, minCount, s, i, ms[i], keep[i], recent, used < budget, pending);
      if take {
        if !keep[i] {
          used := used + size(ms[i]);
        }
        keep[i] := true;
      }
    }
  }

  /** The array both functions start from: only the latest external instruction is kept. */
  method Begin(ms: seq<Message>, ghost p: Policy) returns (keep: array<bool>, latest: int)
    ensures fresh(keep) && keep.Length == |ms| && -1 <= latest < |ms|
    ensures Start(ms, p) == if latest >= 0 then State({latest as nat}, {}, 0, p.size(ms[latest])) else State({}, {}, 0, 0)
    ensures forall k :: 0 <= k < |ms| ==> keep[k] == (k in Start(ms, p).keep)
  {
    keep := new bool[|ms|](_ => false);
    latest := Protection.LatestInstruction(ms, Bones(ms));
    if latest >= 0 {
      keep[latest] := true;
    }
  }

  /** recentMessagesForCompaction. */
  method RecentMessages(ms: seq<Message>, minCount: int, ghost size: Message -> nat) returns (out: seq<Message>)
    ensures out == Window(ms, Policy(minCount, 0, size))
  {
    ghost var p := Policy(minCount, 0, size);
    if |ms| <= minCount {
      PickAll(ms, Keep(ms, p), |ms|);
      assert ms[..|ms|] == ms;
      return ms;
    }
    var keep, latest := Begin(ms, p);
    ScanPlain(ms, keep, minCount, p, Start(ms, p));
    out := Chosen(ms, keep);
  }

  /** recentMessagesWithinBudget. */
  method RecentMessagesWithinBudget(ms: seq<Message>, minCount: int, budget: int, size: Message -> nat) returns (out: seq<Message>)
    ensures out == Window(ms, Policy(minCount, budget, size))
  {
    if budget <= 0 {
      out := RecentMessages(ms, minCount, size);
      return;
    }
    ghost var p := Policy(minCount, budget, size);
    if |ms| <= minCount {
      PickAll(ms, Keep(ms, p), |ms|);
      assert ms[..|ms|] == ms;
      return ms;
    }
    var keep, latest := Begin(ms, p);
    var used := if latest >= 0 then size(ms[latest]) else 0;
    ScanBudgeted(ms, keep, minCount, budget, used, size, p, Start(ms, p));
    out := Chosen(ms, keep);
  }

  /** A window is an order-preserving selection: where each of its messages came from. */
  lemma {:induction false} PickEmbeds(ms: seq<Message>, chosen: set<nat>, n: nat) returns (at: seq<nat>)
    requires n <= |ms|
    ensures |at| == |Pick(ms, chosen, n)| && forall k :: 0 <= k < |at| ==> at[k] < n && ms[at[k]] == Pick(ms, chosen, n)[k]
    ensures forall k, l :: 0 <= k < l < |at| ==> at[k] < at[l]
    ensures forall i :: 0 <= i < n ==> (i in chosen <==> i in at)
  {
    if n == 0 {
      at := [];
    } else {
      at := PickEmbeds(ms, chosen, n - 1);
      if n - 1 in chosen {
        InAppended(at, n - 1);
        at := at + [n - 1];
      }
    }
  }

  lemma InAppended(at: seq<nat>, last: nat)
    ensures forall i :: i in at + [last] <==> i in at || i == last
  {
    assert (at + [last])[|at|] == last;
  }
}
