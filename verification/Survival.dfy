/**
  What survives from one provider view to a smaller one made from it: an order-preserving embedding
  that keeps the protected messages, the issuers of every retained result and, when identities are
  not shared, the results of every retained call
  (internal/runtime/request_budget.go:488-715).
*/
module Survival {
  import opened ReplayClosure
  import opened Protection
  import Text

  predicate NeedsIssuer(b: Bone, j: nat, issuer: Bone)
    requires j < |b.answered|
  {
    b.role == Tool && b.answered[j] != "" && Issues(issuer, b.answered[j])
  }

  /** Every assistant that issued the identity of a retained result is retained. */
  ghost predicate IssuersKept(bs: seq<Bone>, small: seq<Bone>, kept: seq<nat>)
    requires |kept| == |small|
  {
    forall k, j, q :: 0 <= k < |small| && 0 <= j < |small[k].answered| && 0 <= q < |bs| && NeedsIssuer(small[k], j, bs[q]) ==>
                        q in kept
  }

  /** No identity is issued by two assistants. */
  ghost predicate Disjoint(bs: seq<Bone>) {
    forall a, b :: 0 <= a < b < |bs| && bs[a].role == Assistant && bs[b].role == Assistant ==> bs[a].issued !! bs[b].issued
  }

  /** Some later result of message `p` answers `id`. */
  predicate Answers(b: Bone, id: string) {
    b.role == Tool && id in b.answered
  }

  /** A retained call keeps its later results. */
  ghost predicate ResultsKept(bs: seq<Bone>, small: seq<Bone>, kept: seq<nat>)
    requires |kept| == |small|
  {
    forall k, p, id :: 0 <= k < |kept| && 0 <= kept[k] < p < |bs| && id != "" && Issues(bs[kept[k]], id) && Answers(bs[p], id) ==>
                         HasAnswer(small, kept, p, id)
  }

  ghost predicate HasAnswer(small: seq<Bone>, kept: seq<nat>, p: nat, id: string)
    requires |kept| == |small|
  {
    exists l :: 0 <= l < |kept| && kept[l] == p && Answers(small[l], id)
  }

  ghost predicate Survives(bs: seq<Bone>, small: seq<Bone>, kept: seq<nat>) {
    && Embeds(bs, small, kept, Protected(bs))
    && IssuersKept(bs, small, kept)
    && (Disjoint(bs) ==> ResultsKept(bs, small, kept) && Disjoint(small))
  }

  function Identity(n: nat): (ks: seq<nat>)
    ensures |ks| == n && forall k :: 0 <= k < n ==> ks[k] == k
  {
    seq(n, k => k)
  }

  function Through(outer: seq<nat>, inner: seq<nat>): (ks: seq<nat>)
    requires forall k :: 0 <= k < |inner| ==> inner[k] < |outer|
    ensures |ks| == |inner| && forall k :: 0 <= k < |inner| ==> ks[k] == outer[inner[k]]
  {
    seq(|inner|, k requires 0 <= k < |inner| => outer[inner[k]])
  }

  lemma SurvivesUnchanged(bs: seq<Bone>)
    ensures Survives(bs, bs, Identity(|bs|))
  {
    ProtectedInRange(bs);
    var ks := Identity(|bs|);
    forall i | 0 <= i < |bs|
      ensures ks[i] == i && i in ks
    {
    }
    assert forall p, id :: 0 <= p < |bs| && Answers(bs[p], id) ==> ks[p] == p && HasAnswer(bs, ks, p, id);
  }

  lemma EmbedsCompose(a: seq<Bone>, b: seq<Bone>, c: seq<Bone>, kb: seq<nat>, kc: seq<nat>)
    requires Embeds(a, b, kb, Protected(a)) && Embeds(b, c, kc, Protected(b))
    ensures Embeds(a, c, Through(kb, kc), Protected(a))
  {
    ProtectedMoves(a, b, kb);
    EmbedsThrough(a, b, c, kb, kc, Protected(a), Protected(b));
  }

  lemma EmbedsThrough(a: seq<Bone>, b: seq<Bone>, c: seq<Bone>, kb: seq<nat>, kc: seq<nat>, fa: set<nat>, fb: set<nat>)
    requires Embeds(a, b, kb, fa) && Embeds(b, c, kc, fb)
    requires forall k :: 0 <= k < |kb| ==> (k in fb <==> kb[k] in fa)
    ensures Embeds(a, c, Through(kb, kc), fa)
  {
    var ks := Through(kb, kc);
    forall i | i in fa
      ensures i in ks
    {
      var j :| 0 <= j < |kb| && kb[j] == i;
      assert j in fb;
      var l :| 0 <= l < |kc| && kc[l] == j;
      assert ks[l] == i;
    }
  }

  lemma IssuersCompose(a: seq<Bone>, b: seq<Bone>, c: seq<Bone>, kb: seq<nat>, kc: seq<nat>, fa: set<nat>, fb: set<nat>)
    requires Embeds(a, b, kb, fa) && Embeds(b, c, kc, fb)
    requires IssuersKept(a, b, kb) && IssuersKept(b, c, kc)
    ensures IssuersKept(a, c, Through(kb, kc))
  {
    var ks := Through(kb, kc);
    forall k, j, q | 0 <= k < |c| && 0 <= j < |c[k].answered| && 0 <= q < |a| && NeedsIssuer(c[k], j, a[q])
      ensures q in ks
    {
      var id := c[k].answered[j];
      var m := b[kc[k]];
      assert Shrunk(c[k], m) && id in m.answered;
      var i :| 0 <= i < |m.answered| && m.answered[i] == id;
      assert NeedsIssuer(m, i, a[q]) && q in kb;
      var l :| 0 <= l < |kb| && kb[l] == q;
      assert Shrunk(b[l], a[q]) && Issues(b[l], id);
      assert NeedsIssuer(c[k], j, b[l]) && l in kc;
      var n :| 0 <= n < |kc| && kc[n] == l;
      assert ks[n] == q;
    }
  }

  lemma ResultsCompose(a: seq<Bone>, b: seq<Bone>, c: seq<Bone>, kb: seq<nat>, kc: seq<nat>, fa: set<nat>, fb: set<nat>)
    requires Embeds(a, b, kb, fa) && Embeds(b, c, kc, fb)
    requires ResultsKept(a, b, kb) && ResultsKept(b, c, kc)
    ensures ResultsKept(a, c, Through(kb, kc))
  {
    var ks := Through(kb, kc);
    forall k, p, id | 0 <= k < |ks| && 0 <= ks[k] < p < |a| && id != "" && Issues(a[ks[k]], id) && Answers(a[p], id)
      ensures HasAnswer(c, ks, p, id)
    {
      assert Shrunk(b[kc[k]], a[ks[k]]) && Issues(b[kc[k]], id);
      assert HasAnswer(b, kb, p, id);
      var l :| 0 <= l < |kb| && kb[l] == p && Answers(b[l], id);
      assert kc[k] < l;
      assert HasAnswer(c, kc, l, id);
      var n :| 0 <= n < |kc| && kc[n] == l && Answers(c[n], id);
      assert ks[n] == p;
    }
  }

  /** What survives two steps survives them together. */
  lemma SurvivesCompose(a: seq<Bone>, b: seq<Bone>, c: seq<Bone>, kb: seq<nat>, kc: seq<nat>)
    requires Survives(a, b, kb) && Survives(b, c, kc)
    ensures Survives(a, c, Through(kb, kc))
  {
    EmbedsCompose(a, b, c, kb, kc);
    IssuersCompose(a, b, c, kb, kc, Protected(a), Protected(b));
    if Disjoint(a) {
      ResultsCompose(a, b, c, kb, kc, Protected(a), Protected(b));
    }
  }

  // ---------- dropping a closure ----------

  lemma DropKeepsIssuers(ms: seq<Message>, index: nat)
    requires Droppable(Bones(ms), index)
    ensures
      var c := MessageClosure(Bones(ms), index);
      |Kept(ms, c, 0)| == |Bones(Prune(ms, c, 0))| && IssuersKept(Bones(ms), Bones(Prune(ms, c, 0)), Kept(ms, c, 0))
  {
    var c := MessageClosure(Bones(ms), index);
    var kept, out := Kept(ms, c, 0), Prune(ms, c, 0);
    KeptMeaning(ms, c, 0);
    forall k, j, q | 0 <= k < |out| && 0 <= j < |BoneOf(out[k]).answered| && 0 <= q < |ms| && NeedsIssuer(BoneOf(out[k]), j, BoneOf(ms[q]))
      ensures q in kept
    {
      var p := kept[k];
      ThinKeeps(ms[p], p, c);
      RetainedResultKeepsIssuers(ms, index, p, out[k].results[j], q);
    }
  }

  lemma DropKeepsResults(ms: seq<Message>, index: nat)
    requires Droppable(Bones(ms), index) && Disjoint(Bones(ms))
    ensures
      var c := MessageClosure(Bones(ms), index);
      |Kept(ms, c, 0)| == |Bones(Prune(ms, c, 0))| && ResultsKept(Bones(ms), Bones(Prune(ms, c, 0)), Kept(ms, c, 0))
  {
    var bs := Bones(ms);
    var c := MessageClosure(bs, index);
    var kept, out := Kept(ms, c, 0), Prune(ms, c, 0);
    KeptMeaning(ms, c, 0);
    forall k, p, id | 0 <= k < |kept| && 0 <= kept[k] < p < |bs| && id != "" && Issues(bs[kept[k]], id) && Answers(bs[p], id)
      ensures HasAnswer(Bones(out), kept, p, id)
    {
      DropKeepsResult(ms, index, kept[k], p, id);
      assert p in kept;
      var l :| 0 <= l < |kept| && kept[l] == p;
      assert Answers(Bones(out)[l], id);
    }
  }

  lemma DropKeepsResult(ms: seq<Message>, index: nat, q: nat, p: nat, id: string)
    requires index < |ms| && q < p < |ms| && Disjoint(Bones(ms))
    requires Thin(ms[q], q, MessageClosure(Bones(ms), index)).Some?
    requires id != "" && Issues(BoneOf(ms[q]), id) && Answers(BoneOf(ms[p]), id)
    ensures Thin(ms[p], p, MessageClosure(Bones(ms), index)).Some?
    ensures Answers(BoneOf(Thin(ms[p], p, MessageClosure(Bones(ms), index)).value), id)
  {
    var bs := Bones(ms);
    var c := MessageClosure(bs, index);
    var j :| 0 <= j < |bs[p].answered| && bs[p].answered[j] == id;
    var r := ms[p].results[j];
    forall a | 0 <= a < |ms| && a != q && ms[a].role == Assistant
      ensures Issued(ms[a]) !! Issued(ms[q])
    {
      assert bs[a].role == Assistant && bs[q].role == Assistant;
      if a < q {
        assert bs[a].issued !! bs[q].issued;
      } else {
        assert bs[q].issued !! bs[a].issued;
      }
    }
    RetainedCallKeepsResults(ms, index, q, p, r);
    ThinKeeps(ms[p], p, c);
    var t := Thin(ms[p], p, c).value;
    var i :| 0 <= i < |t.results| && t.results[i] == r;
    assert Answered(t.results)[i] == id;
  }

  lemma EmbeddingKeepsDisjoint(bs: seq<Bone>, small: seq<Bone>, kept: seq<nat>, fixed: set<nat>)
    requires Embeds(bs, small, kept, fixed) && Disjoint(bs)
    ensures Disjoint(small)
  {
    forall a, b | 0 <= a < b < |small| && small[a].role == Assistant && small[b].role == Assistant
      ensures small[a].issued !! small[b].issued
    {
      assert Shrunk(small[a], bs[kept[a]]) && Shrunk(small[b], bs[kept[b]]);
    }
  }

  /** Dropping an admitted closure keeps all that must survive. */
  lemma DropSurvives(ms: seq<Message>, index: nat)
    requires Droppable(Bones(ms), index)
    ensures
      var c := MessageClosure(Bones(ms), index);
      Survives(Bones(ms), Bones(Prune(ms, c, 0)), Kept(ms, c, 0))
  {
    var c := MessageClosure(Bones(ms), index);
    DropEmbeds(ms, index);
    DropKeepsIssuers(ms, index);
    if Disjoint(Bones(ms)) {
      DropKeepsResults(ms, index);
      EmbeddingKeepsDisjoint(Bones(ms), Bones(Prune(ms, c, 0)), Kept(ms, c, 0), Protected(Bones(ms)));
    }
  }
}
