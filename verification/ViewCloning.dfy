/**
  Cloned provider views: a candidate is edited in place, through the address of a tool result and
  through its metadata map, both of which other views may share. The deep clone is what keeps the
  caller's messages as they are, and the edited clone is the candidate that the hard fit works on
  (internal/runtime/request_budget.go:341-345, 389-486, internal/runtime/compaction.go:858-878, 1100-1134).
*/
module ViewCloning {
  import opened ReplayClosure
  import opened RequestBudget
  import opened HardFit
  import Text

  // ---------- what a view is made of ----------

  /** The metadata keys that mark a result. */
  datatype Marks = Marks(pointerized: bool, duplicate: bool, compacted: bool, artifact: Option<(string, nat)>, replays: Option<string>)

  /** A metadata map, by reference. A nil map is an empty one of its own. */
  class Metadata {
    var marks: Marks

    constructor (marks: Marks)
      ensures this.marks == marks
    {
      this.marks := marks;
    }
  }

  /** A tool result where it lies in memory. */
  class Cell {
    const callId: Ident
    const name: string
    const isError: bool
    var output: string
    var meta: Metadata

    constructor (callId: Ident, name: string, isError: bool, output: string, meta: Metadata)
      ensures this.callId == callId && this.name == name && this.isError == isError
      ensures this.output == output && this.meta == meta
    {
      this.callId, this.name, this.isError := callId, name, isError;
      this.output, this.meta := output, meta;
    }

    function Value(): ToolResult
      reads this, meta
    {
      var m := meta.marks;
      ToolResult(callId, name, output, isError, m.pointerized, m.duplicate, m.compacted, m.artifact, m.replays)
    }
  }

  /** A message whose results lie in memory, and the rest of it. */
  datatype Held = Held(shell: Message, cells: seq<Cell>)

  predicate Has(view: seq<Held>, k: int, p: int) {
    0 <= k < |view| && 0 <= p < |view[k].cells|
  }

  function Cells(view: seq<Held>): set<Cell> {
    set h, c | h in view && c in h.cells :: c
  }

  function CellAt(view: seq<Held>, k: int, p: int): (c: Cell)
    requires Has(view, k, p)
    ensures c in Cells(view)
  {
    assert view[k] in view && view[k].cells[p] in view[k].cells;
    view[k].cells[p]
  }

  function Maps(cells: set<Cell>): set<Metadata>
    reads cells
  {
    set c | c in cells :: c.meta
  }

  /** The view reads as these messages. */
  ghost predicate ReadsAs(view: seq<Held>, ms: seq<Message>)
    reads Cells(view), Maps(Cells(view))
  {
    && |ms| == |view|
    && (forall k :: 0 <= k < |view| ==> ms[k] == view[k].shell.(results := ms[k].results) && |ms[k].results| == |view[k].cells|)
    && (forall k, p :: Has(view, k, p) ==> ms[k].results[p] == CellAt(view, k, p).Value())
  }

  /** No two results of the view are the same or share a map. */
  ghost predicate Separate(view: seq<Held>)
    reads Cells(view)
  {
    forall k, p, l, q :: Has(view, k, p) && Has(view, l, q) && (k != l || p != q) ==>
      CellAt(view, k, p) != CellAt(view, l, q) && CellAt(view, k, p).meta != CellAt(view, l, q).meta
  }

  // ---------- cloning ----------

  method CloneCell(cell: Cell) returns (out: Cell)
    ensures fresh(out) && fresh(out.meta) && out.Value() == cell.Value()
  {
    var meta := new Metadata(cell.meta.marks);
    out := new Cell(cell.callId, cell.name, cell.isError, cell.output, meta);
  }

  /** cloneToolResults. */
  method CloneCells(cells: seq<Cell>) returns (out: seq<Cell>)
    ensures |out| == |cells|
    ensures forall p :: 0 <= p < |out| ==> fresh(out[p]) && fresh(out[p].meta) && out[p].Value() == cells[p].Value()
    ensures forall p, q :: 0 <= p < q < |out| ==> out[p] != out[q] && out[p].meta != out[q].meta
  {
    out := [];
    for k := 0 to |cells|
      invariant |out| == k
      invariant forall p :: 0 <= p < k ==> fresh(out[p]) && fresh(out[p].meta) && out[p].Value() == cells[p].Value()
      invariant forall p, q :: 0 <= p < q < k ==> out[p] != out[q] && out[p].meta != out[q].meta
    {
      var cell := CloneCell(cells[k]);
      out := out + [cell];
    }
  }

  /** cloneMessages: the clone reads the same, and shares nothing that an edit could touch, neither with
      the original, whatever that shares, nor among its own results. */
  method CloneView(view: seq<Held>, ghost ms: seq<Message>) returns (out: seq<Held>)
    requires ReadsAs(view, ms)
    ensures ReadsAs(out, ms) && Separate(out)
    ensures forall c :: c in Cells(out) ==> fresh(c) && fresh(c.meta)
  {
    out := [];
    for n := 0 to |view|
      invariant |out| == n && ReadsAs(out, ms[..n]) && Separate(out)
      invariant forall c :: c in Cells(out) ==> fresh(c) && fresh(c.meta)
    {
      var cells := CloneNext(view, ms, out, n);
      var h := Held(view[n].shell, cells);
      JoinedReads(out, ms[..n], h, ms[n]);
      JoinedSeparate(out, h, ms[n]);
      JoinedCells(out, h);
      out := out + [h];
      assert ms[..n + 1] == ms[..n] + [ms[n]];
    }
    assert ms[..|view|] == ms;
  }

  /** The cells of one more message hold its results, and are distinct from what was cloned before. */
  ghost predicate Joins(done: seq<Held>, cells: seq<Cell>, m: Message)
    reads Cells(done), cells, set c | c in cells :: c.meta
  {
    && |m.results| == |cells| && (forall p :: 0 <= p < |cells| ==> m.results[p] == cells[p].Value())
    && (forall p, q :: 0 <= p < q < |cells| ==> cells[p] != cells[q] && cells[p].meta != cells[q].meta)
    && (forall k, p, q :: Has(done, k, p) && 0 <= q < |cells| ==>
          CellAt(done, k, p) != cells[q] && CellAt(done, k, p).meta != cells[q].meta)
  }

  lemma JoinedCells(done: seq<Held>, h: Held)
    ensures forall c :: c in Cells(done + [h]) <==> c in Cells(done) || c in h.cells
  {
    assert forall o :: o in done + [h] <==> o in done || o == h;
  }

  lemma JoinedReads(done: seq<Held>, before: seq<Message>, h: Held, m: Message)
    requires ReadsAs(done, before) && Joins(done, h.cells, m) && m == h.shell.(results := m.results)
    ensures ReadsAs(done + [h], before + [m])
  {
    var view := done + [h];
    forall k, p | Has(view, k, p)
      ensures (before + [m])[k].results[p] == CellAt(view, k, p).Value()
    {
      assert k < |done| ==> Has(done, k, p) && CellAt(view, k, p) == CellAt(done, k, p);
      assert k == |done| ==> CellAt(view, k, p) == h.cells[p];
    }
  }

  lemma JoinedSeparate(done: seq<Held>, h: Held, m: Message)
    requires Separate(done) && Joins(done, h.cells, m)
    ensures Separate(done + [h])
  {
    var view := done + [h];
    forall k, p, l, q | Has(view, k, p) && Has(view, l, q) && (k != l || p != q)
      ensures CellAt(view, k, p) != CellAt(view, l, q) && CellAt(view, k, p).meta != CellAt(view, l, q).meta
    {
      assert k < |done| ==> Has(done, k, p) && CellAt(view, k, p) == CellAt(done, k, p);
      assert l < |done| ==> Has(done, l, q) && CellAt(view, l, q) == CellAt(done, l, q);
    }
  }

  method CloneNext(view: seq<Held>, ghost ms: seq<Message>, done: seq<Held>, n: nat) returns (cells: seq<Cell>)
    requires ReadsAs(view, ms) && n < |view|
    ensures Joins(done, cells, ms[n])
    ensures forall p :: 0 <= p < |cells| ==> fresh(cells[p]) && fresh(cells[p].meta)
  {
    cells := CloneCells(view[n].cells);
    assert forall p :: 0 <= p < |cells| ==> Has(view, n, p) && CellAt(view, n, p) == view[n].cells[p];
  }

  // ---------- editing in place ----------

  /** The result at a place gets another output and other marks, through its address and its map. */
  method Write(view: seq<Held>, ghost ms: seq<Message>, k: nat, p: nat, r: ToolResult)
    requires ReadsAs(view, ms) && Separate(view) && IsResult(ms, k, p) && Has(view, k, p)
    requires r == ms[k].results[p].(output := r.output, pointerized := r.pointerized, replays := r.replays)
    modifies CellAt(view, k, p), CellAt(view, k, p).meta
    ensures ReadsAs(view, WithResult(ms, k, p, r)) && Separate(view)
    ensures CellAt(view, k, p).meta == old(CellAt(view, k, p).meta)
  {
    var cell := view[k].cells[p];
    cell.output := r.output;
    cell.meta.marks := cell.meta.marks.(pointerized := r.pointerized, replays := r.replays);
    ghost var next := WithResult(ms, k, p, r);
    forall l, q | Has(view, l, q)
      ensures next[l].results[q] == CellAt(view, l, q).Value()
    {
      assert l != k || q != p ==> CellAt(view, l, q) != CellAt(view, k, p) && CellAt(view, l, q).meta != cell.meta;
    }
  }

  /** The messages the view reads as, gathered. */
  method Gather(view: seq<Held>, ghost ms: seq<Message>) returns (read: seq<Message>)
    requires ReadsAs(view, ms)
    ensures read == ms
  {
    read := [];
    for k := 0 to |view|
      invariant read == ms[..k]
    {
      var results := [];
      for p := 0 to |view[k].cells|
        invariant results == ms[k].results[..p]
      {
        assert Has(view, k, p) && CellAt(view, k, p) == view[k].cells[p];
        results := results + [view[k].cells[p].Value()];
      }
      assert results == ms[k].results;
      read := read + [view[k].shell.(results := results)];
      assert ms[..k + 1] == ms[..k] + [ms[k]];
    }
  }

  /** pointerizeRecoverableResultForHardFit on a view that shares nothing: when it agrees the view has become
      the candidate; when it refuses it may have written all the same. */
  method PointerizeInPlace(env: Env, view: seq<Held>, ghost ms: seq<Message>, k: int, p: int) returns (ok: bool)
    requires ReadsAs(view, ms) && Separate(view)
    modifies Cells(view), Maps(Cells(view))
    ensures ok <==> IsResult(ms, k, p) && PointerCandidate(env, ms, k, p).Some?
    ensures ok ==> ReadsAs(view, PointerCandidate(env, ms, k, p).value)
    ensures forall c :: c in Cells(view) ==> c.meta == old(c.meta)
  {
    if k < 0 || k >= |view| || p < 0 || p >= |view[k].cells| {
      return false;
    }
    assert Has(view, k, p) && CellAt(view, k, p) == view[k].cells[p];
    var r := view[k].cells[p].Value();
    if r.pointerized || r.duplicate || r.compacted || r.output == "" {
      return false;
    }
    var pointed: Option<ToolResult>;
    if r.artifact.Some? {
      var text := env.artifactPointer(r);
      Write(view, ms, k, p, r.(output := text, pointerized := true, replays := None));
      return Text.Bytes(text) < Text.Bytes(r.output);
    }
    var read := Gather(view, ms);
    pointed := PointerizeByReplay(env, read, r);
    if pointed.None? {
      return false;
    }
    Write(view, ms, k, p, pointed.value);
    ok := true;
  }

  /** A candidate of the pointerizing phase. The caller's view may share results and maps with anything: it
      reads as before, and the candidate, made of new cells, is the one the hard fit works on. */
  method Candidate(env: Env, view: seq<Held>, ghost ms: seq<Message>, k: int, p: int) returns (candidate: Option<seq<Held>>)
    requires ReadsAs(view, ms)
    ensures ReadsAs(view, ms)
    ensures candidate.Some? <==> IsResult(ms, k, p) && PointerCandidate(env, ms, k, p).Some?
    ensures candidate.Some? ==> ReadsAs(candidate.value, PointerCandidate(env, ms, k, p).value)
    ensures candidate.Some? ==> forall c :: c in Cells(candidate.value) ==> fresh(c) && fresh(c.meta)
  {
    var clone := CloneView(view, ms);
    var ok := PointerizeInPlace(env, clone, ms, k, p);
    candidate := if ok then Some(clone) else None;
  }
}
