/**
  File-change accounting: a collector that pairs tool calls with their results, and the incremental
  fold that must give the same list (internal/filechanges/filechanges.go:30-265).
*/
module FileChanges {
  import Text

  /** What happened to one path. */
  datatype Change = Change(path: string, writes: nat, edits: nat, added: nat, removed: nat)

  datatype Redirect = Redirect(path: string, append: bool)

  /** The decoded arguments of a call; `redirects` are those of its shell command. */
  datatype Args = Args(path: string, content: string, hasContent: bool, oldText: string, newText: string, workdir: string, redirects: seq<Redirect>)

  /** A call; `id` is trimmed and blank for none. */
  datatype Call = Call(id: string, name: string, args: Args)

  datatype Result = Result(id: string, isError: bool, path: string)

  datatype Message = Message(calls: seq<Call>, results: seq<Result>)

  /** resolvePath: from the path a result reports, the path argument and the working directory of the
      operation to a workspace-relative path, blank for none. */
  type Resolver = (string, string, string) -> string

  function Newlines(text: string): nat {
    if text == "" then 0 else Newlines(text[..|text| - 1]) + (if text[|text| - 1] == '\n' then 1 else 0)
  }

  /** CountTextLines. */
  function Lines(text: string): nat {
    if text == "" then 0 else Newlines(text) + 1
  }

  function Minus(a: nat, b: nat): nat {
    if a > b then a - b else 0
  }

  // ---------- lists of changes ----------

  function Plus(c: Change, d: Change): Change {
    Change(c.path, c.writes + d.writes, c.edits + d.edits, c.added + d.added, c.removed + d.removed)
  }

  /** The last place of a path in a list; -1 for none. */
  function Find(list: seq<Change>, path: string): (i: int)
    ensures -1 <= i < |list|
    ensures i >= 0 ==> list[i].path == path
    ensures i < 0 ==> forall k :: 0 <= k < |list| ==> list[k].path != path
  {
    if list == [] then -1
    else if list[|list| - 1].path == path then |list| - 1
    else Find(list[..|list| - 1], path)
  }

  /** One change added to a list: to its path, or at the end. */
  function Bump(list: seq<Change>, d: Change): seq<Change> {
    var i := Find(list, d.path);
    if i >= 0 then list[i := Plus(list[i], d)] else list + [d]
  }

  function BumpAll(list: seq<Change>, deltas: seq<Change>): seq<Change> {
    if deltas == [] then list else Bump(BumpAll(list, deltas[..|deltas| - 1]), deltas[|deltas| - 1])
  }

  /** The changes with trimmed paths, without those whose path is blank. */
  function Normalized(deltas: seq<Change>): seq<Change> {
    if deltas == [] then []
    else
      var last := deltas[|deltas| - 1];
      Normalized(deltas[..|deltas| - 1]) + (if Text.Trim(last.path) == "" then [] else [last.(path := Text.Trim(last.path))])
  }

  /** Merge. */
  function Merged(base: seq<Change>, additions: seq<Change>): seq<Change> {
    BumpAll(base, Normalized(additions))
  }

  ghost predicate Distinct(list: seq<Change>) {
    forall i, j :: 0 <= i < j < |list| ==> list[i].path != list[j].path
  }

  /** Distinct, trimmed, non-blank paths. */
  ghost predicate Clean(list: seq<Change>) {
    Distinct(list) && forall i :: 0 <= i < |list| ==> IsNormal(list[i])
  }

  predicate IsNormal(c: Change) {
    Text.Trim(c.path) == c.path != ""
  }

  predicate Has(list: seq<Change>, path: string) {
    Find(list, path) >= 0
  }

  lemma FindInDistinct(list: seq<Change>, path: string, i: nat)
    requires Distinct(list) && i < |list| && list[i].path == path
    ensures Find(list, path) == i
  {
  }

  lemma BumpKeeps(list: seq<Change>, d: Change)
    requires Distinct(list)
    ensures Distinct(Bump(list, d)) && Has(Bump(list, d), d.path)
    ensures forall path :: Has(list, path) ==> Has(Bump(list, d), path)
  {
    var out := Bump(list, d);
    forall path | Has(list, path)
      ensures Has(out, path)
    {
      assert out[Find(list, path)].path == path;
    }
    assert out[if Find(list, d.path) >= 0 then Find(list, d.path) else |list|].path == d.path;
  }

  /** Two changes of one path are one. */
  lemma BumpTwice(list: seq<Change>, e: Change, d: Change)
    requires Distinct(list) && e.path == d.path
    ensures Bump(Bump(list, e), d) == Bump(list, Plus(e, d))
  {
    var i := Find(list, e.path);
    var mid := Bump(list, e);
    BumpKeeps(list, e);
    FindInDistinct(mid, e.path, if i >= 0 then i else |list|);
  }

  /** Changes of different paths commute when the first path is already there. */
  lemma BumpCommutes(list: seq<Change>, d: Change, e: Change)
    requires Distinct(list) && Has(list, d.path) && d.path != e.path
    ensures Bump(Bump(list, d), e) == Bump(Bump(list, e), d)
  {
    var i := Find(list, d.path);
    BumpKeeps(list, d);
    BumpKeeps(list, e);
    FindInDistinct(Bump(list, e), d.path, i);
    var j := Find(list, e.path);
    if j >= 0 {
      FindInDistinct(Bump(list, d), e.path, j);
    } else {
      assert Bump(list, d) == list[i := Plus(list[i], d)];
      assert Find(Bump(list, d), e.path) == -1;
    }
  }

  lemma {:induction false} BumpAllHas(list: seq<Change>, deltas: seq<Change>, i: nat)
    requires Distinct(list) && i < |deltas|
    ensures Distinct(BumpAll(list, deltas)) && Has(BumpAll(list, deltas), deltas[i].path)
    decreases |deltas|
  {
    var init, last := deltas[..|deltas| - 1], deltas[|deltas| - 1];
    BumpAllDistinct(list, init);
    BumpKeeps(BumpAll(list, init), last);
    if i < |init| {
      BumpAllHas(list, init, i);
    }
  }

  lemma {:induction false} BumpAllDistinct(list: seq<Change>, deltas: seq<Change>)
    requires Distinct(list)
    ensures Distinct(BumpAll(list, deltas))
    decreases |deltas|
  {
    if deltas != [] {
      BumpAllDistinct(list, deltas[..|deltas| - 1]);
      BumpKeeps(BumpAll(list, deltas[..|deltas| - 1]), deltas[|deltas| - 1]);
    }
  }

  lemma {:induction false} BumpAllKeeps(list: seq<Change>, deltas: seq<Change>)
    requires Distinct(list)
    ensures Distinct(BumpAll(list, deltas))
    ensures forall i :: 0 <= i < |deltas| ==> Has(BumpAll(list, deltas), deltas[i].path)
  {
    BumpAllDistinct(list, deltas);
    forall i | 0 <= i < |deltas|
      ensures Has(BumpAll(list, deltas), deltas[i].path)
    {
      BumpAllHas(list, deltas, i);
    }
  }

  lemma BumpAllOneMore(list: seq<Change>, m: seq<Change>, e: Change)
    ensures BumpAll(list, m + [e]) == Bump(BumpAll(list, m), e)
  {
    assert (m + [e])[..|m|] == m;
  }

  lemma BumpThroughLast(list: seq<Change>, init: seq<Change>, e: Change, d: Change)
    requires Distinct(list) && e.path == d.path
    ensures BumpAll(list, init + [Plus(e, d)]) == Bump(BumpAll(list, init + [e]), d)
  {
    BumpAllOneMore(list, init, e);
    BumpAllOneMore(list, init, Plus(e, d));
    BumpAllKeeps(list, init);
    BumpTwice(BumpAll(list, init), e, d);
  }

  lemma BumpSplit(init: seq<Change>, e: Change, d: Change)
    requires Distinct(init + [e])
    ensures
      Bump(init + [e], d) == if e.path == d.path then init + [Plus(e, d)]
                             else if Has(init, d.path) then Bump(init, d) + [e] else init + [e] + [d]
  {
    assert (init + [e])[..|init|] == init;
  }

  /** A change added to the additions is a change added to the sum. */
  lemma {:induction false} BumpThrough(list: seq<Change>, m: seq<Change>, d: Change)
    requires Distinct(list) && Distinct(m)
    ensures BumpAll(list, Bump(m, d)) == Bump(BumpAll(list, m), d)
    decreases |m|
  {
    if !Has(m, d.path) {
      BumpAllOneMore(list, m, d);
    } else {
      var init, e := m[..|m| - 1], m[|m| - 1];
      assert m == init + [e];
      BumpSplit(init, e, d);
      if e.path == d.path {
        BumpThroughLast(list, init, e, d);
      } else {
        BumpThrough(list, init, d);
        BumpAllOneMore(list, init, e);
        BumpAllOneMore(list, Bump(init, d), e);
        BumpAllKeeps(list, init);
        assert Has(BumpAll(list, init), init[Find(init, d.path)].path);
        BumpCommutes(BumpAll(list, init), d, e);
      }
    }
  }

  lemma {:induction false} BumpAllAssociates(list: seq<Change>, m: seq<Change>, deltas: seq<Change>)
    requires Distinct(list) && Distinct(m)
    ensures BumpAll(list, BumpAll(m, deltas)) == BumpAll(BumpAll(list, m), deltas)
    decreases |deltas|
  {
    if deltas != [] {
      var init := deltas[..|deltas| - 1];
      BumpAllAssociates(list, m, init);
      BumpAllKeeps(m, init);
      BumpThrough(list, BumpAll(m, init), deltas[|deltas| - 1]);
    }
  }

  lemma {:induction false} NormalIsNormalized(list: seq<Change>)
    requires forall i :: 0 <= i < |list| ==> IsNormal(list[i])
    ensures Normalized(list) == list
  {
    if list != [] {
      var init, last := list[..|list| - 1], list[|list| - 1];
      NormalIsNormalized(init);
      assert IsNormal(last) && list == init + [last];
    }
  }

  lemma {:induction false} NormalizedIsNormal(list: seq<Change>)
    ensures forall i :: 0 <= i < |Normalized(list)| ==> IsNormal(Normalized(list)[i])
  {
    if list != [] {
      NormalizedIsNormal(list[..|list| - 1]);
      Text.TrimIdempotent(list[|list| - 1].path);
    }
  }

  lemma {:induction false} BumpAllNormal(list: seq<Change>, deltas: seq<Change>)
    requires forall i :: 0 <= i < |list| ==> IsNormal(list[i])
    requires forall i :: 0 <= i < |deltas| ==> IsNormal(deltas[i])
    ensures forall i :: 0 <= i < |BumpAll(list, deltas)| ==> IsNormal(BumpAll(list, deltas)[i])
    decreases |deltas|
  {
    if deltas != [] {
      var init := deltas[..|deltas| - 1];
      BumpAllNormal(list, init);
    }
  }

  lemma MergedIsClean(base: seq<Change>, additions: seq<Change>)
    requires Clean(base)
    ensures Clean(Merged(base, additions))
  {
    NormalizedIsNormal(additions);
    BumpAllKeeps(base, Normalized(additions));
    BumpAllNormal(base, Normalized(additions));
  }

  /** Merging is associative on lists with distinct, trimmed, non-blank paths. */
  lemma MergeAssociates(a: seq<Change>, b: seq<Change>, c: seq<Change>)
    requires Clean(a) && Clean(b)
    ensures Merged(Merged(a, b), c) == Merged(a, Merged(b, c))
  {
    MergedIsClean(b, c);
    NormalIsNormalized(b);
    NormalIsNormalized(Merged(b, c));
    BumpAllAssociates(a, b, Normalized(c));
  }

  lemma NormalizedStep(additions: seq<Change>, i: nat)
    requires i < |additions|
    ensures
      var path := Text.Trim(additions[i].path);
      Normalized(additions[..i + 1])
      == if path == "" then Normalized(additions[..i]) else Normalized(additions[..i]) + [additions[i].(path := path)]
  {
    assert additions[..i + 1][..i] == additions[..i];
  }

  /** The index map of Merge: where each path is. */
  ghost predicate Indexed(index: map<string, nat>, list: seq<Change>) {
    forall p :: (p in index <==> Has(list, p)) && (p in index ==> index[p] == Find(list, p))
  }

  method IndexPaths(base: seq<Change>) returns (index: map<string, nat>)
    ensures Indexed(index, base)
  {
    index := map[];
    for i := 0 to |base|
      invariant Indexed(index, base[..i])
    {
      assert base[..i + 1][..i] == base[..i];
      index := index[base[i].path := i];
    }
    assert base[..|base|] == base;
  }

  /** The list after one addition, its path trimmed. */
  function Added(list: seq<Change>, d: Change): seq<Change> {
    if Text.Trim(d.path) == "" then list else Bump(list, d.(path := Text.Trim(d.path)))
  }

  method AddOne(list: seq<Change>, index0: map<string, nat>, d: Change) returns (out: seq<Change>, index: map<string, nat>)
    requires Indexed(index0, list)
    ensures out == Added(list, d) && Indexed(index, out)
  {
    out, index := list, index0;
    var path := Text.Trim(d.path);
    if path == "" {
      return;
    }
    var add := d.(path := path);
    if path in index {
      out := out[index[path] := Plus(out[index[path]], add)];
      SamePaths(list, out);
    } else {
      index := index[path := |out|];
      out := out + [add];
      assert out[..|list|] == list;
    }
  }

  lemma MergedStep(base: seq<Change>, additions: seq<Change>, i: nat)
    requires i < |additions|
    ensures Merged(base, additions[..i + 1]) == Added(Merged(base, additions[..i]), additions[i])
  {
    NormalizedStep(additions, i);
    var path := Text.Trim(additions[i].path);
    if path != "" {
      BumpAllOneMore(base, Normalized(additions[..i]), additions[i].(path := path));
    }
  }

  method Merge(base: seq<Change>, additions: seq<Change>) returns (out: seq<Change>)
    ensures out == Merged(base, additions)
  {
    out := base;
    var index := IndexPaths(base);
    for i := 0 to |additions|
      invariant out == Merged(base, additions[..i]) && Indexed(index, out)
    {
      MergedStep(base, additions, i);
      out, index := AddOne(out, index, additions[i]);
    }
    assert additions[..|additions|] == additions;
  }

  lemma {:induction false} SamePaths(a: seq<Change>, b: seq<Change>)
    requires |a| == |b| && forall i :: 0 <= i < |a| ==> a[i].path == b[i].path
    ensures forall p :: Find(a, p) == Find(b, p)
    decreases |a|
  {
    if a != [] {
      SamePaths(a[..|a| - 1], b[..|b| - 1]);
    }
  }

  // ---------- calls and their results ----------

  /** isFileMutatingTool. */
  predicate Mutates(name: string) {
    var trimmed := Text.Trim(name);
    trimmed == "write_file" || trimmed == "edit_file" || trimmed == "shell"
  }

  function RedirectEffects(resolve: Resolver, redirects: seq<Redirect>, cwd: string): seq<Change> {
    seq(|redirects|, i requires 0 <= i < |redirects| =>
      Change(resolve("", redirects[i].path, cwd),
             if redirects[i].append then 0 else 1, if redirects[i].append then 1 else 0, 0, 0))
  }

  /** What a successful call did, path by path; the tool's name is taken as it is written. */
  function Effects(resolve: Resolver, call: Call, result: Result): seq<Change> {
    if call.name == "write_file" then
      [Change(resolve(result.path, call.args.path, ""), 1, 0, if call.args.hasContent then Lines(call.args.content) else 0, 0)]
    else if call.name == "edit_file" then
      var before, after := Lines(call.args.oldText), Lines(call.args.newText);
      [Change(resolve(result.path, call.args.path, ""), 0, 1, Minus(after, before), Minus(before, after))]
    else if call.name == "shell" then RedirectEffects(resolve, call.args.redirects, call.args.workdir)
    else []
  }

  function NewlinePlaces(text: string): set<nat> {
    set i | 0 <= i < |text| && text[i] == '\n'
  }

  lemma {:induction false} NewlinesAreCounted(text: string)
    ensures Newlines(text) == |NewlinePlaces(text)|
  {
    if text == "" {
      assert NewlinePlaces(text) == {};
    } else {
      var last := |text| - 1;
      NewlinesAreCounted(text[..last]);
      assert NewlinePlaces(text) == NewlinePlaces(text[..last]) + (if text[last] == '\n' then {last} else {});
    }
  }

  /** What each tool contributes. A write counts the lines of its content as added; an edit counts the
      difference of its two texts, as added or as removed but not both; a shell command counts one change
      for each of its redirects, in order; no other name contributes, even with blanks around it. */
  lemma EffectsMeaning(resolve: Resolver, call: Call, result: Result)
    ensures
      var effects := Effects(resolve, call, result);
      var path := resolve(result.path, call.args.path, "");
      && (call.name == "write_file" ==>
            && |effects| == 1 && effects[0].path == path && effects[0].writes == 1 && effects[0].edits == 0
            && effects[0].removed == 0 && effects[0].added == (if call.args.hasContent then Lines(call.args.content) else 0))
      && (call.name == "edit_file" ==>
            && |effects| == 1 && effects[0].path == path && effects[0].writes == 0 && effects[0].edits == 1
            && effects[0].added - effects[0].removed == Lines(call.args.newText) - Lines(call.args.oldText)
            && (effects[0].added == 0 || effects[0].removed == 0))
      && (call.name == "shell" ==>
            && |effects| == |call.args.redirects|
            && forall i :: 0 <= i < |effects| ==>
                 && effects[i].path == resolve("", call.args.redirects[i].path, call.args.workdir)
                 && effects[i].added == effects[i].removed == 0
                 && (call.args.redirects[i].append ==> effects[i].writes == 0 && effects[i].edits == 1)
                 && (!call.args.redirects[i].append ==> effects[i].writes == 1 && effects[i].edits == 0))
      && (call.name !in {"write_file", "edit_file", "shell"} ==> effects == [])
  {
  }

  datatype Pair = Pair(call: Call, result: Result)

  type Pending = map<string, Call>

  function Register(pending: Pending, call: Call): Pending {
    if call.id == "" || !Mutates(call.name) then pending else pending[call.id := call]
  }

  function RegisterAll(pending: Pending, calls: seq<Call>): Pending {
    if calls == [] then pending else Register(RegisterAll(pending, calls[..|calls| - 1]), calls[|calls| - 1])
  }

  /** The calls still waiting, and the successful ones resolved so far, in order. */
  datatype Book = Book(pending: Pending, resolved: seq<Pair>)

  function Resolve(b: Book, r: Result): Book {
    if r.id == "" || r.id !in b.pending then b
    else Book(b.pending - {r.id}, if r.isError then b.resolved else b.resolved + [Pair(b.pending[r.id], r)])
  }

  function ResolveAll(b: Book, results: seq<Result>): Book {
    if results == [] then b else Resolve(ResolveAll(b, results[..|results| - 1]), results[|results| - 1])
  }

  /** AddMessage: calls wait, results resolve them. */
  function AddTo(b: Book, m: Message): Book {
    ResolveAll(b.(pending := RegisterAll(b.pending, m.calls)), m.results)
  }

  function Resolved(messages: seq<Message>): Book {
    if messages == [] then Book(map[], []) else AddTo(Resolved(messages[..|messages| - 1]), messages[|messages| - 1])
  }

  /** FromCall. */
  function CallChanges(resolve: Resolver, p: Pair): seq<Change> {
    if p.result.isError || !Mutates(p.call.name) then [] else Merged([], Effects(resolve, p.call, p.result))
  }

  /** The incremental account: each resolved call's changes merged into the list. */
  function Incremental(resolve: Resolver, pairs: seq<Pair>): seq<Change> {
    if pairs == [] then []
    else Merged(Incremental(resolve, pairs[..|pairs| - 1]), CallChanges(resolve, pairs[|pairs| - 1]))
  }

  /** The batch account: each resolved call applied to one collector. */
  function Batch(resolve: Resolver, pairs: seq<Pair>): seq<Change> {
    if pairs == [] then []
    else
      var last := pairs[|pairs| - 1];
      Merged(Batch(resolve, pairs[..|pairs| - 1]), Effects(resolve, last.call, last.result))
  }

  lemma {:induction false} BatchIsClean(resolve: Resolver, pairs: seq<Pair>)
    ensures Clean(Batch(resolve, pairs))
    decreases |pairs|
  {
    if pairs != [] {
      BatchIsClean(resolve, pairs[..|pairs| - 1]);
      MergedIsClean(Batch(resolve, pairs[..|pairs| - 1]), Effects(resolve, pairs[|pairs| - 1].call, pairs[|pairs| - 1].result));
    }
  }

  ghost predicate Proper(pairs: seq<Pair>) {
    forall i :: 0 <= i < |pairs| ==> !pairs[i].result.isError && Mutates(pairs[i].call.name)
  }

  /** Merging call by call gives exactly the batch list: the same paths in the same order with the same
      counts. */
  lemma {:induction false} IncrementalIsBatch(resolve: Resolver, pairs: seq<Pair>)
    requires Proper(pairs)
    ensures Incremental(resolve, pairs) == Batch(resolve, pairs)
    decreases |pairs|
  {
    if pairs != [] {
      var init, last := pairs[..|pairs| - 1], pairs[|pairs| - 1];
      IncrementalIsBatch(resolve, init);
      BatchIsClean(resolve, init);
      var effects := Effects(resolve, last.call, last.result);
      MergeAssociates(Batch(resolve, init), [], effects);
      assert Normalized([]) == [];
      assert Merged(Batch(resolve, init), []) == Batch(resolve, init);
    }
  }

  ghost predicate Waiting(pending: Pending) {
    forall id :: id in pending ==> id != "" && pending[id].id == id && Mutates(pending[id].name)
  }

  lemma {:induction false} RegisterAllWaiting(pending: Pending, calls: seq<Call>)
    requires Waiting(pending)
    ensures Waiting(RegisterAll(pending, calls))
  {
    if calls != [] {
      RegisterAllWaiting(pending, calls[..|calls| - 1]);
    }
  }

  lemma {:induction false} ResolveAllProper(b: Book, results: seq<Result>)
    requires Waiting(b.pending) && Proper(b.resolved)
    ensures Waiting(ResolveAll(b, results).pending) && Proper(ResolveAll(b, results).resolved)
  {
    if results != [] {
      ResolveAllProper(b, results[..|results| - 1]);
    }
  }

  lemma {:induction false} ResolvedProper(messages: seq<Message>)
    ensures Waiting(Resolved(messages).pending) && Proper(Resolved(messages).resolved)
    decreases |messages|
  {
    if messages != [] {
      var b, m := Resolved(messages[..|messages| - 1]), messages[|messages| - 1];
      ResolvedProper(messages[..|messages| - 1]);
      RegisterAllWaiting(b.pending, m.calls);
      ResolveAllProper(b.(pending := RegisterAll(b.pending, m.calls)), m.results);
    }
  }

  // ---------- each call counts once ----------

  function CallsWith(calls: seq<Call>, id: string): nat {
    if calls == [] then 0 else CallsWith(calls[..|calls| - 1], id) + (if calls[|calls| - 1].id == id then 1 else 0)
  }

  function AllCallsWith(messages: seq<Message>, id: string): nat {
    if messages == [] then 0
    else AllCallsWith(messages[..|messages| - 1], id) + CallsWith(messages[|messages| - 1].calls, id)
  }

  function PairsWith(pairs: seq<Pair>, id: string): nat {
    if pairs == [] then 0 else PairsWith(pairs[..|pairs| - 1], id) + (if pairs[|pairs| - 1].call.id == id then 1 else 0)
  }

  function WaitingWith(pending: Pending, id: string): nat {
    if id in pending then 1 else 0
  }

  lemma {:induction false} RegisterCount(pending: Pending, calls: seq<Call>, id: string)
    ensures WaitingWith(RegisterAll(pending, calls), id) <= WaitingWith(pending, id) + CallsWith(calls, id)
  {
    if calls != [] {
      RegisterCount(pending, calls[..|calls| - 1], id);
    }
  }

  lemma {:induction false} ResolveCount(b: Book, results: seq<Result>, id: string)
    requires Waiting(b.pending) && Proper(b.resolved)
    ensures
      var a := ResolveAll(b, results);
      PairsWith(a.resolved, id) + WaitingWith(a.pending, id) <= PairsWith(b.resolved, id) + WaitingWith(b.pending, id)
  {
    if results != [] {
      var init := results[..|results| - 1];
      ResolveCount(b, init, id);
      ResolveAllProper(b, init);
      var a, r := ResolveAll(b, init), results[|results| - 1];
      if r.id in a.pending {
        assert (a.resolved + [Pair(a.pending[r.id], r)])[..|a.resolved|] == a.resolved;
      }
    }
  }

  /** No call is counted more often than it was made. */
  lemma {:induction false} CountedAtMostOnce(messages: seq<Message>, id: string)
    ensures
      var b := Resolved(messages);
      PairsWith(b.resolved, id) + WaitingWith(b.pending, id) <= AllCallsWith(messages, id)
    decreases |messages|
  {
    if messages != [] {
      var init, m := messages[..|messages| - 1], messages[|messages| - 1];
      CountedAtMostOnce(init, id);
      ResolvedProper(init);
      var b := Resolved(init);
      RegisterCount(b.pending, m.calls, id);
      RegisterAllWaiting(b.pending, m.calls);
      ResolveCount(b.(pending := RegisterAll(b.pending, m.calls)), m.results, id);
    }
  }

  // ---------- which result settles which call ----------

  /** The messages as one stream: of each message its calls, then its results. */
  datatype Event = Called(call: Call) | Answered(result: Result)

  function CallEvents(calls: seq<Call>): seq<Event> {
    if calls == [] then [] else CallEvents(calls[..|calls| - 1]) + [Called(calls[|calls| - 1])]
  }

  function ResultEvents(results: seq<Result>): seq<Event> {
    if results == [] then [] else ResultEvents(results[..|results| - 1]) + [Answered(results[|results| - 1])]
  }

  function Stream(messages: seq<Message>): seq<Event> {
    if messages == [] then []
    else
      var last := messages[|messages| - 1];
      Stream(messages[..|messages| - 1]) + CallEvents(last.calls) + ResultEvents(last.results)
  }

  function After(b: Book, e: Event): Book {
    match e
    case Called(call) => b.(pending := Register(b.pending, call))
    case Answered(r) => Resolve(b, r)
  }

  function AfterAll(b: Book, es: seq<Event>): Book {
    if es == [] then b else After(AfterAll(b, es[..|es| - 1]), es[|es| - 1])
  }

  lemma {:induction false} AfterConcat(b: Book, es: seq<Event>, fs: seq<Event>)
    ensures AfterAll(b, es + fs) == AfterAll(AfterAll(b, es), fs)
    decreases |fs|
  {
    if fs == [] {
      assert es + fs == es;
    } else {
      AfterConcat(b, es, fs[..|fs| - 1]);
      assert (es + fs)[..|es + fs| - 1] == es + fs[..|fs| - 1];
    }
  }

  lemma {:induction false} AfterCalls(b: Book, calls: seq<Call>)
    ensures AfterAll(b, CallEvents(calls)) == b.(pending := RegisterAll(b.pending, calls))
    decreases |calls|
  {
    if calls != [] {
      var init := calls[..|calls| - 1];
      AfterCalls(b, init);
      assert CallEvents(calls)[..|CallEvents(calls)| - 1] == CallEvents(init);
    }
  }

  lemma {:induction false} AfterResults(b: Book, results: seq<Result>)
    ensures AfterAll(b, ResultEvents(results)) == ResolveAll(b, results)
    decreases |results|
  {
    if results != [] {
      var init := results[..|results| - 1];
      AfterResults(b, init);
      assert ResultEvents(results)[..|ResultEvents(results)| - 1] == ResultEvents(init);
    }
  }

  lemma {:induction false} StreamResolves(messages: seq<Message>)
    ensures Resolved(messages) == AfterAll(Book(map[], []), Stream(messages))
    decreases |messages|
  {
    if messages != [] {
      var init, last := messages[..|messages| - 1], messages[|messages| - 1];
      StreamResolves(init);
      var start := Book(map[], []);
      AfterConcat(start, Stream(init), CallEvents(last.calls));
      AfterConcat(start, Stream(init) + CallEvents(last.calls), ResultEvents(last.results));
      AfterCalls(Resolved(init), last.calls);
      AfterResults(Resolved(init).(pending := RegisterAll(Resolved(init).pending, last.calls)), last.results);
    }
  }

  /** A call that may change files, or a result, with this identity. */
  predicate Concerns(e: Event, id: string) {
    match e
    case Called(call) => call.id == id && Mutates(call.name)
    case Answered(r) => r.id == id
  }

  /** After the first `n` events the call at `c` still waits: nothing after it concerns its identity. */
  predicate Open(es: seq<Event>, n: nat, c: nat, id: string)
    requires n <= |es|
  {
    && c < n && es[c].Called? && id != "" && Concerns(es[c], id)
    && forall k :: c < k < n ==> !Concerns(es[k], id)
  }

  lemma {:induction false} WaitingMeaning(es: seq<Event>, n: nat, id: string)
    requires n <= |es|
    ensures
      var pending := AfterAll(Book(map[], []), es[..n]).pending;
      && (forall c: nat :: Open(es, n, c, id) ==> id in pending && pending[id] == es[c].call)
      && (id in pending ==> exists c: nat :: Open(es, n, c, id))
    decreases n
  {
    if n > 0 {
      WaitingMeaning(es, n - 1, id);
      assert es[..n][..n - 1] == es[..n - 1] && es[..n][n - 1] == es[n - 1];
      var before, after := AfterAll(Book(map[], []), es[..n - 1]), AfterAll(Book(map[], []), es[..n]);
      assert after == After(before, es[n - 1]);
      forall c: nat | Open(es, n, c, id)
        ensures id in after.pending && after.pending[id] == es[c].call
      {
        if c < n - 1 {
          assert Open(es, n - 1, c, id) && !Concerns(es[n - 1], id);
        }
      }
      if id in after.pending {
        if id in before.pending && !Concerns(es[n - 1], id) {
          var c: nat :| Open(es, n - 1, c, id);
          assert Open(es, n, c, id);
        } else {
          assert Open(es, n, n - 1, id);
        }
      }
    }
  }

  /** The successful result at event `k` settles the waiting call of its identity, and counts it. */
  predicate Settles(es: seq<Event>, k: nat, c: nat)
    requires k < |es|
  {
    es[k].Answered? && !es[k].result.isError && c < k && Open(es, k, c, es[k].result.id)
  }

  /** Exactly the successful results that settle a call count, each with the latest waiting call of its
      identity; so a call counts once, when its first result arrives, if that one is a success. */
  lemma {:induction false} ResolvedMeaning(es: seq<Event>, k: nat)
    requires k < |es|
    ensures
      var before, after := AfterAll(Book(map[], []), es[..k]), AfterAll(Book(map[], []), es[..k + 1]);
      && (forall c :: 0 <= c < k && Settles(es, k, c) ==> after.resolved == before.resolved + [Pair(es[c].call, es[k].result)])
      && ((forall c :: 0 <= c < k ==> !Settles(es, k, c)) ==> after.resolved == before.resolved)
  {
    assert es[..k + 1][..k] == es[..k];
    if es[k].Answered? {
      WaitingMeaning(es, k, es[k].result.id);
      if es[k].result.id in AfterAll(Book(map[], []), es[..k]).pending && !es[k].result.isError {
        var c: nat :| Open(es, k, c, es[k].result.id);
        assert Settles(es, k, c);
      }
    }
  }

  // ---------- the counts of one path ----------

  /** What the changes with this path, once trimmed, add up to. */
  function Total(deltas: seq<Change>, path: string): Change {
    if deltas == [] then Change(path, 0, 0, 0, 0)
    else
      var last := deltas[|deltas| - 1];
      var rest := Total(deltas[..|deltas| - 1], path);
      if Text.Trim(last.path) == path then Plus(rest, last) else rest
  }

  function TotalOfCalls(resolve: Resolver, pairs: seq<Pair>, path: string): Change {
    if pairs == [] then Change(path, 0, 0, 0, 0)
    else
      var last := pairs[|pairs| - 1];
      Plus(TotalOfCalls(resolve, pairs[..|pairs| - 1], path), Total(Effects(resolve, last.call, last.result), path))
  }

  /** The entry of a path in a list, or nothing counted. */
  function Entry(list: seq<Change>, path: string): Change {
    if Find(list, path) >= 0 then list[Find(list, path)] else Change(path, 0, 0, 0, 0)
  }

  lemma {:induction false} BumpEntry(list: seq<Change>, d: Change, path: string)
    requires Distinct(list)
    ensures Entry(Bump(list, d), path) == if d.path == path then Plus(Entry(list, path), d) else Entry(list, path)
  {
    var i := Find(list, d.path);
    var out := Bump(list, d);
    BumpKeeps(list, d);
    FindInDistinct(out, d.path, if i >= 0 then i else |list|);
    if d.path != path {
      var j := Find(list, path);
      if j >= 0 {
        FindInDistinct(out, path, j);
      } else {
        assert forall k :: 0 <= k < |out| ==> out[k].path != path;
      }
    }
  }

  lemma AddedEntry(list: seq<Change>, d: Change, path: string)
    requires Distinct(list) && path != ""
    ensures Entry(Added(list, d), path) == if Text.Trim(d.path) == path then Plus(Entry(list, path), d) else Entry(list, path)
  {
    if Text.Trim(d.path) != "" {
      BumpEntry(list, d.(path := Text.Trim(d.path)), path);
    }
  }

  lemma PlusAssociates(a: Change, b: Change, c: Change)
    ensures Plus(Plus(a, b), c) == Plus(a, Plus(b, c))
  {
  }

  lemma TotalLast(deltas: seq<Change>, path: string)
    requires deltas != []
    ensures
      var last, rest := deltas[|deltas| - 1], Total(deltas[..|deltas| - 1], path);
      Total(deltas, path) == if Text.Trim(last.path) == path then Plus(rest, last) else rest
  {
  }

  lemma MergedNothing(list: seq<Change>)
    ensures Merged(list, []) == list
  {
    assert Normalized([]) == [];
  }

  lemma MergedLast(list: seq<Change>, deltas: seq<Change>)
    requires deltas != [] && Clean(list)
    ensures Merged(list, deltas) == Added(Merged(list, deltas[..|deltas| - 1]), deltas[|deltas| - 1])
    ensures Distinct(Merged(list, deltas[..|deltas| - 1]))
  {
    MergedIsClean(list, deltas[..|deltas| - 1]);
    MergedStep(list, deltas, |deltas| - 1);
    assert deltas[..|deltas|] == deltas;
  }

  lemma {:induction false} MergedEntry(list: seq<Change>, deltas: seq<Change>, path: string)
    requires Clean(list) && path != ""
    ensures Entry(Merged(list, deltas), path) == Plus(Entry(list, path), Total(deltas, path))
    decreases |deltas|
  {
    if deltas == [] {
      MergedNothing(list);
    } else {
      MergedEntry(list, deltas[..|deltas| - 1], path);
      MergedLast(list, deltas);
      AddedEntry(Merged(list, deltas[..|deltas| - 1]), deltas[|deltas| - 1], path);
      TotalLast(deltas, path);
      PlusAssociates(Entry(list, path), Total(deltas[..|deltas| - 1], path), deltas[|deltas| - 1]);
    }
  }

  /** The account of a path is the sum of what every counted call did to it. */
  lemma {:induction false} AccountIsTotal(resolve: Resolver, pairs: seq<Pair>, path: string)
    requires path != ""
    ensures Entry(Batch(resolve, pairs), path) == TotalOfCalls(resolve, pairs, path)
    decreases |pairs|
  {
    if pairs != [] {
      var init, last := pairs[..|pairs| - 1], pairs[|pairs| - 1];
      AccountIsTotal(resolve, init, path);
      BatchIsClean(resolve, init);
      MergedEntry(Batch(resolve, init), Effects(resolve, last.call, last.result), path);
    }
  }

  // ---------- the collector ----------

  datatype Accumulated = Accumulated(change: Change, firstSeen: nat)

  /** The changes in order of first appearance, each under its own path. */
  ghost predicate Lists(changes: map<string, Accumulated>, list: seq<Change>) {
    && Distinct(list)
    && (forall i :: 0 <= i < |list| ==> list[i].path in changes && changes[list[i].path] == Accumulated(list[i], i))
    && (forall p :: p in changes ==> changes[p].firstSeen < |list| && list[changes[p].firstSeen].path == p)
  }

  lemma AddToKnown(changes: map<string, Accumulated>, list: seq<Change>, add: Change)
    requires Lists(changes, list) && add.path in changes
    ensures Lists(changes[add.path := changes[add.path].(change := Plus(changes[add.path].change, add))], Bump(list, add))
  {
    FindInDistinct(list, add.path, changes[add.path].firstSeen);
  }

  lemma AddToUnknown(changes: map<string, Accumulated>, list: seq<Change>, add: Change)
    requires Lists(changes, list) && add.path !in changes
    ensures Lists(changes[add.path := Accumulated(add, |list|)], Bump(list, add)) && |Bump(list, add)| == |list| + 1
  {
    assert Find(list, add.path) == -1;
  }

  lemma RegisterStep(pending: Pending, calls: seq<Call>, i: nat)
    requires i < |calls|
    ensures RegisterAll(pending, calls[..i + 1]) == Register(RegisterAll(pending, calls[..i]), calls[i])
  {
    assert calls[..i + 1][..i] == calls[..i];
  }

  lemma ResolveStep(b: Book, results: seq<Result>, i: nat)
    requires i < |results|
    ensures ResolveAll(b, results[..i + 1]) == Resolve(ResolveAll(b, results[..i]), results[i])
  {
    assert results[..i + 1][..i] == results[..i];
  }

  class Collector {
    const resolve: Resolver
    var changes: map<string, Accumulated>
    var order: nat
    var pending: Pending
    ghost var list: seq<Change>
    ghost var resolved: seq<Pair>

    constructor (resolve: Resolver)
      ensures Valid() && list == [] && resolved == [] && pending == map[] && this.resolve == resolve
    {
      this.resolve := resolve;
      changes, order, pending := map[], 0, map[];
      list, resolved := [], [];
    }

    ghost predicate Valid()
      reads this
    {
      order == |list| && Lists(changes, list)
    }

    /** ensure, and the addition of the counts to what it returns. */
    method Apply(d: Change)
      requires Valid()
      modifies this`changes, this`order, this`list
      ensures Valid() && list == Added(old(list), d)
    {
      var path := Text.Trim(d.path);
      if path == "" {
        return;
      }
      var add := d.(path := path);
      if path in changes {
        var current := changes[path];
        AddToKnown(changes, list, add);
        changes := changes[path := current.(change := Plus(current.change, add))];
      } else {
        AddToUnknown(changes, list, add);
        changes := changes[path := Accumulated(add, order)];
        order := order + 1;
      }
      list := Bump(list, add);
    }

    /** applyCall. */
    method ApplyCall(call: Call, result: Result)
      requires Valid()
      modifies this`changes, this`order, this`list
      ensures Valid() && list == Merged(old(list), Effects(resolve, call, result))
    {
      var effects := Effects(resolve, call, result);
      for i := 0 to |effects|
        invariant Valid() && list == Merged(old(list), effects[..i])
      {
        MergedStep(old(list), effects, i);
        Apply(effects[i]);
      }
      assert effects[..|effects|] == effects;
    }

    /** What the collector knows is the account of the messages so far. */
    ghost predicate Tells(b: Book)
      reads this
    {
      pending == b.pending && resolved == b.resolved && list == Batch(resolve, b.resolved)
    }

    method AddResult(r: Result, ghost b: Book)
      requires Valid() && Tells(b)
      modifies this
      ensures Valid() && Tells(Resolve(b, r))
    {
      if r.id == "" || r.id !in pending {
        return;
      }
      var call := pending[r.id];
      pending := pending - {r.id};
      if r.isError {
        return;
      }
      ghost var was := resolved;
      resolved := resolved + [Pair(call, r)];
      assert resolved[..|was|] == was;
      ApplyCall(call, r);
    }

    method AddMessage(m: Message, ghost b: Book)
      requires Valid() && Tells(b)
      modifies this
      ensures Valid() && Tells(AddTo(b, m))
    {
      for i := 0 to |m.calls|
        invariant Valid() && Tells(b.(pending := RegisterAll(b.pending, m.calls[..i])))
      {
        RegisterStep(b.pending, m.calls, i);
        var call := m.calls[i];
        if call.id == "" || !Mutates(call.name) {
          continue;
        }
        pending := pending[call.id := call];
      }
      assert m.calls[..|m.calls|] == m.calls;
      ghost var waiting := b.(pending := RegisterAll(b.pending, m.calls));
      for i := 0 to |m.results|
        invariant Valid() && Tells(ResolveAll(waiting, m.results[..i]))
      {
        ResolveStep(waiting, m.results, i);
        AddResult(m.results[i], ResolveAll(waiting, m.results[..i]));
      }
      assert m.results[..|m.results|] == m.results;
    }

    /** Summaries: the accumulated changes by first appearance. */
    method Summaries() returns (out: seq<Change>)
      requires Valid()
      ensures out == list
    {
      out := [];
      for i := 0 to order
        invariant out == list[..i]
      {
        assert list[i].path in changes;
        var p :| p in changes && changes[p].firstSeen == i;
        assert changes[p].change == list[i];
        out := out + [changes[p].change];
      }
    }
  }

  /** FromMessages: the batch account, which is also what merging call by call gives. */
  method FromMessages(resolve: Resolver, messages: seq<Message>) returns (out: seq<Change>)
    ensures out == Batch(resolve, Resolved(messages).resolved)
    ensures out == Incremental(resolve, Resolved(messages).resolved)
    ensures Clean(out)
  {
    var c := new Collector(resolve);
    for i := 0 to |messages|
      invariant c.Valid() && c.resolve == resolve && c.Tells(Resolved(messages[..i]))
    {
      assert messages[..i + 1][..i] == messages[..i];
      c.AddMessage(messages[i], Resolved(messages[..i]));
    }
    assert messages[..|messages|] == messages;
    out := c.Summaries();
    ResolvedProper(messages);
    IncrementalIsBatch(resolve, Resolved(messages).resolved);
    BatchIsClean(resolve, Resolved(messages).resolved);
  }

  /** FromCall. */
  method FromCall(resolve: Resolver, call: Call, result: Result) returns (out: seq<Change>)
    ensures out == CallChanges(resolve, Pair(call, result))
  {
    if result.isError || !Mutates(call.name) {
      return [];
    }
    var c := new Collector(resolve);
    c.ApplyCall(call, result);
    out := c.Summaries();
  }
}
