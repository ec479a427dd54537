/**
  Compaction of old tool results: the newest results stay inline while they fit a count and a byte
  budget, everything older is replaced (internal/runtime/compaction.go:736-809).
*/
module ToolCompaction {
  import opened ReplayClosure
  import Text

  /** The limits, and the texts that take the place of an output. */
  datatype Limits = Limits(count: int, bytes: int, artifactPointer: ToolResult -> string, payload: ToolResult -> string)

  function Clamp(x: int): nat {
    if x < 0 then 0 else x
  }

  function Reversed<T>(s: seq<T>): (r: seq<T>)
    ensures |r| == |s| && forall k :: 0 <= k < |s| ==> r[k] == s[|s| - 1 - k]
  {
    seq(|s|, k requires 0 <= k < |s| => s[|s| - 1 - k])
  }

  /** The results of the tool messages from `i` on, newest first. */
  function Flat(ms: seq<Message>, i: nat): seq<ToolResult>
    requires i <= |ms|
    decreases |ms| - i
  {
    if i == |ms| then []
    else Flat(ms, i + 1) + (if ms[i].role == Tool then Reversed(ms[i].results) else [])
  }

  /** How many results the tool messages from `i` on hold. */
  function Newer(ms: seq<Message>, i: nat): nat
    requires i <= |ms|
    decreases |ms| - i
  {
    if i == |ms| then 0 else Newer(ms, i + 1) + (if ms[i].role == Tool then |ms[i].results| else 0)
  }

  predicate Pointerized(r: ToolResult) {
    !r.duplicate && r.pointerized
  }

  /** A result that is neither a pointer nor a duplicate marker. */
  predicate IsPlain(r: ToolResult) {
    !r.duplicate && !r.pointerized
  }

  /** The inline bytes of the `n` newest results; pointers take none. */
  function Inline(flat: seq<ToolResult>, n: nat): nat
    requires n <= |flat|
  {
    if n == 0 then 0
    else Inline(flat, n - 1) + (if Pointerized(flat[n - 1]) then 0 else Text.Bytes(flat[n - 1].output))
  }

  /** The result is among the newest `count`, and together with everything newer it fits the bytes. */
  predicate Recent(l: Limits, flat: seq<ToolResult>, k: nat)
    requires k < |flat|
  {
    k < Clamp(l.count) && Inline(flat, k + 1) <= Clamp(l.bytes)
  }

  function Replaced(l: Limits, r: ToolResult): ToolResult {
    if r.artifact.Some? then r.(output := l.artifactPointer(r), pointerized := true)
    else r.(output := l.payload(r), compacted := true)
  }

  /** What becomes of the `k`-th newest result. */
  function Treated(l: Limits, flat: seq<ToolResult>, k: nat): ToolResult
    requires k < |flat|
  {
    if IsPlain(flat[k]) && !Recent(l, flat, k) then Replaced(l, flat[k]) else flat[k]
  }

  /** The identities of the `n` newest results that are not recent. */
  function OldIds(l: Limits, flat: seq<ToolResult>, n: nat): set<string>
    requires n <= |flat|
  {
    if n == 0 then {}
    else OldIds(l, flat, n - 1)
         + (if Recent(l, flat, n - 1) || flat[n - 1].callId.key == "" then {} else {flat[n - 1].callId.key})
  }

  // ---------- what the limits mean ----------

  lemma {:induction false} InlineGrows(flat: seq<ToolResult>, j: nat, k: nat)
    requires j <= k <= |flat|
    ensures Inline(flat, j) <= Inline(flat, k)
  {
    if j < k {
      InlineGrows(flat, j, k - 1);
    }
  }

  /** Recent results are the newest: nothing recent is older than something that is not. */
  lemma RecentIsNewest(l: Limits, flat: seq<ToolResult>, j: nat, k: nat)
    requires j <= k < |flat| && Recent(l, flat, k)
    ensures Recent(l, flat, j)
  {
    InlineGrows(flat, j + 1, k + 1);
  }

  /** The untouched plain results among the `n` newest, and their bytes. */
  function Untouched(l: Limits, flat: seq<ToolResult>, n: nat): (int, int)
    requires n <= |flat|
  {
    if n == 0 then (0, 0)
    else
      var (count, bytes) := Untouched(l, flat, n - 1);
      if IsPlain(flat[n - 1]) && Recent(l, flat, n - 1) then (count + 1, bytes + Text.Bytes(flat[n - 1].output))
      else (count, bytes)
  }

  /** Untouched plain results stay within both limits. */
  lemma {:induction false} UntouchedWithinLimits(l: Limits, flat: seq<ToolResult>, n: nat)
    requires n <= |flat|
    ensures 0 <= Untouched(l, flat, n).0 <= Clamp(l.count) && 0 <= Untouched(l, flat, n).1 <= Clamp(l.bytes)
    ensures Untouched(l, flat, n).0 <= n && Untouched(l, flat, n).1 <= Inline(flat, n)
  {
    if n > 0 {
      UntouchedWithinLimits(l, flat, n - 1);
    }
  }

  /** The run is greedy: a plain result is replaced only if it is beyond the count, or if keeping it
      with everything newer would break the byte limit. */
  lemma ReplacedOnlyBeyondLimits(l: Limits, flat: seq<ToolResult>, k: nat)
    requires k < |flat| && IsPlain(flat[k])
    ensures Recent(l, flat, k) ==> Treated(l, flat, k) == flat[k]
    ensures !Recent(l, flat, k) ==>
              && Treated(l, flat, k) == Replaced(l, flat[k])
              && (k >= Clamp(l.count) || Inline(flat, k) + Text.Bytes(flat[k].output) > Clamp(l.bytes))
    ensures !Recent(l, flat, k) ==> forall older :: k <= older < |flat| ==> !Recent(l, flat, older)
  {
    forall older | k <= older < |flat| && Recent(l, flat, older)
      ensures Recent(l, flat, k)
    {
      RecentIsNewest(l, flat, k, older);
    }
  }

  /** What takes the place of a plain result beyond the limits: with a complete artifact its pointer, and
      otherwise the payload; nothing else of the result changes. */
  lemma ReplacementMeaning(l: Limits, flat: seq<ToolResult>, k: nat)
    requires k < |flat| && !flat[k].duplicate && !flat[k].pointerized && !Recent(l, flat, k)
    ensures
      var r, out := flat[k], Treated(l, flat, k);
      && out == r.(output := out.output, pointerized := out.pointerized, compacted := out.compacted)
      && (r.artifact.Some? ==> out.output == l.artifactPointer(r) && out.pointerized && out.compacted == r.compacted)
      && (r.artifact.None? ==> out.output == l.payload(r) && out.compacted && !out.pointerized)
  {
  }

  /** What counts against the bytes: every output but those of pointers. */
  lemma InlineMeaning(flat: seq<ToolResult>, n: nat)
    requires n < |flat|
    ensures Inline(flat, 0) == 0
    ensures Inline(flat, n + 1) - Inline(flat, n) ==
              (if flat[n].pointerized && !flat[n].duplicate then 0 else Text.Bytes(flat[n].output))
  {
  }

  // ---------- the procedure ----------

  /** The inline bytes so far, whether the inline suffix is still open, and the old identities. */
  datatype Counters = Counters(bytes: nat, open: bool, oldIds: set<string>)

  /** The counters once the `n` newest results are done. */
  ghost predicate At(l: Limits, flat: seq<ToolResult>, n: nat, c: Counters)
    requires n <= |flat|
  {
    match c
    case Counters(bytes, open, oldIds) =>
      && (open <==> n <= Clamp(l.count) && Inline(flat, n) <= Clamp(l.bytes))
      && (open ==> bytes == Inline(flat, n))
      && oldIds == OldIds(l, flat, n)
  }

  function AddOld(c: Counters, id: Ident): Counters {
    if id.key == "" then c else c.(oldIds := c.oldIds + {id.key})
  }

  /** One turn of the inner loop. */
  method Treat(l: Limits, r: ToolResult, seen: nat, c0: Counters, ghost flat: seq<ToolResult>) returns (out: ToolResult, c: Counters)
    requires seen < |flat| && flat[seen] == r && At(l, flat, seen, c0)
    ensures out == Treated(l, flat, seen) && At(l, flat, seen + 1, c)
  {
    out, c := r, c0;
    var withinCount := seen < Clamp(l.count);
    if !withinCount {
      c := c.(open := false);
    }
    if Pointerized(r) {
      if !withinCount || !c.open {
        c := AddOld(c, r.callId);
      }
      return;
    }
    var size := Text.Bytes(r.output);
    var fitsBytes := c.bytes <= Clamp(l.bytes) && size <= Clamp(l.bytes) - c.bytes;
    if withinCount && c.open && fitsBytes {
      c := c.(bytes := c.bytes + size);
      return;
    }
    c := AddOld(c.(open := false), r.callId);
    if !r.duplicate {
      out := Replaced(l, r);
    }
  }

  /** The message with every result treated. */
  ghost predicate MessageTreated(l: Limits, flat: seq<ToolResult>, base: nat, m: Message, out: Message) {
    match out
    case Message(_, _, _, _, _, _, results, _) =>
      && out == m.(results := results)
      && |results| == |m.results|
      && base + |m.results| <= |flat|
      && forall j :: 0 <= j < |results| ==> results[j] == Treated(l, flat, base + |results| - 1 - j)
  }

  /** Where the results of one message are among all results, newest first. */
  datatype Span = Span(start: nat, length: nat)

  ghost predicate Holds(flat: seq<ToolResult>, span: Span, results: seq<ToolResult>) {
    match span
    case Span(start, n) =>
      start + n <= |flat| && |results| == n && forall j :: 0 <= j < n ==> flat[start + n - 1 - j] == results[j]
  }

  /** The inner loop over the results of one tool message, newest first. */
  method TreatMessage(l: Limits, m: Message, seen: nat, c0: Counters, ghost flat: seq<ToolResult>) returns (out: Message, c: Counters)
    requires Holds(flat, Span(seen, |m.results|), m.results)
    requires At(l, flat, seen, c0)
    ensures MessageTreated(l, flat, seen, m, out)
    ensures At(l, flat, seen + |m.results|, c)
  {
    out, c := m, c0;
    var j := |m.results|;
    while j > 0
      invariant 0 <= j <= |m.results| && |out.results| == |m.results| && out == m.(results := out.results)
      invariant forall k :: 0 <= k < j ==> out.results[k] == m.results[k]
      invariant forall k :: j <= k < |m.results| ==> out.results[k] == Treated(l, flat, seen + |m.results| - 1 - k)
      invariant At(l, flat, seen + |m.results| - j, c)
    {
      j := j - 1;
      var r;
      r, c := Treat(l, out.results[j], seen + |m.results| - 1 - j, c, flat);
      out := out.(results := out.results[j := r]);
    }
  }

  lemma {:induction false} FlatPrefix(ms: seq<Message>, i: nat, j: nat)
    requires i <= j <= |ms|
    ensures |Flat(ms, j)| == Newer(ms, j) <= |Flat(ms, i)|
    ensures forall k :: 0 <= k < |Flat(ms, j)| ==> Flat(ms, i)[k] == Flat(ms, j)[k]
    decreases |ms| - i
  {
    if i < j {
      FlatPrefix(ms, i + 1, j);
    } else if j < |ms| {
      FlatPrefix(ms, j + 1, j + 1);
    }
  }

  lemma ReversedHolds(before: seq<ToolResult>, results: seq<ToolResult>)
    ensures Holds(before + Reversed(results), Span(|before|, |results|), results)
  {
  }

  lemma LongerHolds(flat: seq<ToolResult>, longer: seq<ToolResult>, span: Span, results: seq<ToolResult>)
    requires Holds(flat, span, results) && |flat| <= |longer| && forall k :: 0 <= k < |flat| ==> longer[k] == flat[k]
    ensures Holds(longer, span, results)
  {
  }

  lemma {:induction false} FlatHolds(ms: seq<Message>, i: nat)
    requires i < |ms| && ms[i].role == Tool
    ensures Holds(Flat(ms, 0), Span(Newer(ms, i + 1), |ms[i].results|), ms[i].results)
  {
    FlatPrefix(ms, 0, i);
    FlatPrefix(ms, i + 1, i + 1);
    ReversedHolds(Flat(ms, i + 1), ms[i].results);
    LongerHolds(Flat(ms, i), Flat(ms, 0), Span(Newer(ms, i + 1), |ms[i].results|), ms[i].results);
  }

  /** A message of the compacted view, the results after it being the `seen` newest. */
  ghost predicate PlaceTreated(l: Limits, flat: seq<ToolResult>, seen: nat, m: Message, out: Message) {
    match m.role
    case Tool => MessageTreated(l, flat, seen, m, out)
    case _ => out == m
  }

  /** `flat` lists the results of the tool messages, newest first. */
  ghost predicate Lists(flat: seq<ToolResult>, ms: seq<Message>) {
    && |flat| == Newer(ms, 0)
    && forall i :: 0 <= i < |ms| && ms[i].role == Tool ==> Holds(flat, Span(Newer(ms, i + 1), |ms[i].results|), ms[i].results)
  }

  /** compactOldToolContext, up to its treatment of tool call arguments: every result of a tool
      message is treated by its place among all results, and the identities of the results that are
      not recent are collected. */
  method CompactOldResults(l: Limits, ms: seq<Message>) returns (out: seq<Message>, oldIds: set<string>)
    ensures |out| == |ms| && forall i :: 0 <= i < |ms| ==> PlaceTreated(l, Flat(ms, 0), Newer(ms, i + 1), ms[i], out[i])
    ensures oldIds == OldIds(l, Flat(ms, 0), |Flat(ms, 0)|)
  {
    FlatPrefix(ms, 0, 0);
    forall i | 0 <= i < |ms| && ms[i].role == Tool
      ensures Holds(Flat(ms, 0), Span(Newer(ms, i + 1), |ms[i].results|), ms[i].results)
    {
      FlatHolds(ms, i);
    }
    out, oldIds := CompactListed(l, ms, Flat(ms, 0));
  }

  /** The views in which the messages from `i` on were treated, and the others not yet. */
  ghost function TreatedFrom(l: Limits, flat: seq<ToolResult>, ms: seq<Message>, i: nat): iset<seq<Message>> {
    iset out: seq<Message> |
      && |out| == |ms| && (forall k :: 0 <= k < i && k < |ms| ==> out[k] == ms[k])
      && (forall k :: i <= k < |ms| ==> PlaceTreated(l, flat, Newer(ms, k + 1), ms[k], out[k]))
  }

  lemma OneMoreTreated(l: Limits, flat: seq<ToolResult>, ms: seq<Message>, out: seq<Message>, i: nat, m: Message)
    requires i < |ms| && out in TreatedFrom(l, flat, ms, i + 1) && PlaceTreated(l, flat, Newer(ms, i + 1), ms[i], m)
    ensures out[i := m] in TreatedFrom(l, flat, ms, i)
  {
  }

  /** The outer loop, newest message first. */
  method CompactListed(l: Limits, ms: seq<Message>, ghost flat: seq<ToolResult>) returns (out: seq<Message>, oldIds: set<string>)
    requires Lists(flat, ms)
    ensures |out| == |ms| && forall i :: 0 <= i < |ms| ==> PlaceTreated(l, flat, Newer(ms, i + 1), ms[i], out[i])
    ensures oldIds == OldIds(l, flat, |flat|)
  {
    out := ms;
    var seen, c := 0, Counters(0, true, {});
    var i := |ms|;
    NewerGrows(ms, |ms|);
    while i > 0
      invariant 0 <= i <= |ms| && seen == Newer(ms, i) <= |flat|
      invariant out in TreatedFrom(l, flat, ms, i)
      invariant At(l, flat, seen, c)
    {
      i := i - 1;
      NewerGrows(ms, i);
      var m;
      m, seen, c := TreatPlace(l, ms[i], seen, c, flat);
      OneMoreTreated(l, flat, ms, out, i, m);
      out := out[i := m];
    }
    oldIds := c.oldIds;
  }

  lemma {:induction false} NewerGrows(ms: seq<Message>, i: nat)
    requires i <= |ms|
    ensures Newer(ms, i) <= Newer(ms, 0)
  {
    if i > 0 {
      NewerGrows(ms, i - 1);
    }
  }

  method TreatPlace(l: Limits, m0: Message, seen0: nat, c0: Counters, ghost flat: seq<ToolResult>) returns (m: Message, seen: nat, c: Counters)
    requires seen0 <= |flat| && At(l, flat, seen0, c0)
    requires m0.role == Tool ==> Holds(flat, Span(seen0, |m0.results|), m0.results)
    ensures PlaceTreated(l, flat, seen0, m0, m)
    ensures seen == (if m0.role == Tool then seen0 + |m0.results| else seen0) <= |flat|
    ensures At(l, flat, seen, c)
  {
    m, seen, c := m0, seen0, c0;
    if m.role == Tool {
      m, c := TreatMessage(l, m, seen, c, flat);
      seen := seen + |m0.results|;
    }
  }

  lemma {:induction false} OldIdsMeaning(l: Limits, flat: seq<ToolResult>, n: nat, id: string)
    requires n <= |flat|
    ensures id in OldIds(l, flat, n) <==> id != "" && exists k :: 0 <= k < n && flat[k].callId.key == id && !Recent(l, flat, k)
  {
    if n > 0 {
      OldIdsMeaning(l, flat, n - 1, id);
    }
  }
}
