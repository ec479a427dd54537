/**
  Strict validation of a configuration file: a depth-first walk over a YAML node graph with aliases
  and merges, which remembers what it has validated and refuses cycles
  (internal/config/strict_yaml.go:45-210).
*/
module StrictYaml {
  const MAX_DEPTH := 64
  const MAX_VISITS := 100_000

  datatype Kind = Document | Alias | Mapping | Sequence | ScalarNode

  /** A YAML node; nodes refer to each other by number, and a number outside the graph is a nil node.
      `value` is the trimmed text of a scalar. */
  datatype Node = Node(kind: Kind, isNull: bool, value: string, content: seq<nat>, target: Target)

  datatype Target = NoTarget | TargetNode(node: nat)

  type Graph = map<nat, Node>

  /** The Go type a node is decoded into. A struct's fields are those that configYAMLFields collects. */
  datatype Type =
    | Struct(name: string, fields: map<string, Type>)
    | MapOf(elem: Type)
    | SliceOf(elem: Type)
    | Pointer(elem: Type)
    | Basic(name: string)

  function Strip(t: Type): Type {
    match t
    case Pointer(elem) => Strip(elem)
    case _ => t
  }

  datatype Key = Key(node: nat, target: Type, merge: bool)

  datatype Error = UnknownField(name: string) | MissingTarget | Cycle | TooDeep | TooManyVisits

  datatype Result = Ok | Err(error: Error)

  // ---------- the plain rule ----------

  /** What a node asks for next: another node to validate against a type, or a refusal. */
  datatype Edge = Visit(key: Key) | Refuse(error: Error)

  function Plain(node: nat, t: Type): Edge {
    Visit(Key(node, Strip(t), false))
  }

  function Merge(node: nat, t: Type): Edge {
    Visit(Key(node, Strip(t), true))
  }

  function ValueOf(g: Graph, node: nat): string {
    if node in g then g[node].value else ""
  }

  /** One pair of a mapping, read as a struct or as a map. */
  function PairEdge(g: Graph, name: string, value: nat, t: Type): Edge {
    if name == "<<" then Merge(value, t)
    else match t
      case Struct(_, fields) => if name in fields then Plain(value, fields[name]) else Refuse(UnknownField(name))
      case MapOf(elem) => Plain(value, elem)
      case _ => Refuse(MissingTarget)
  }

  function PairEdges(g: Graph, content: seq<nat>, t: Type): seq<Edge> {
    seq(|content| / 2, i requires 0 <= i < |content| / 2 => PairEdge(g, ValueOf(g, content[2 * i]), content[2 * i + 1], t))
  }

  function ItemEdges(content: seq<nat>, t: Type, merge: bool): seq<Edge> {
    seq(|content|, i requires 0 <= i < |content| => if merge then Merge(content[i], t) else Plain(content[i], t))
  }

  function TargetEdge(node: Node, t: Type, merge: bool): Edge {
    match node.target
    case NoTarget => Refuse(MissingTarget)
    case TargetNode(n) => if merge then Merge(n, t) else Plain(n, t)
  }

  function Edges(g: Graph, k: Key): seq<Edge>
    requires k.node in g
  {
    var node, t := g[k.node], k.target;
    if k.merge then
      match node.kind
      case Alias => [TargetEdge(node, t, true)]
      case Sequence => ItemEdges(node.content, t, true)
      case _ => [Plain(k.node, t)]
    else if node.kind == Document then
      if node.content == [] then [] else [Plain(node.content[0], t)]
    else if node.kind == Alias then [TargetEdge(node, t, false)]
    else if node.isNull then []
    else match t
      case Struct(_, _) => if node.kind == Mapping then PairEdges(g, node.content, t) else []
      case MapOf(_) => if node.kind == Mapping then PairEdges(g, node.content, t) else []
      case SliceOf(elem) => if node.kind == Sequence then ItemEdges(node.content, elem, false) else []
      case _ => []
  }

  /** A type read through its pointers. */
  lemma {:induction false} StripMeaning(t: Type)
    ensures !Strip(t).Pointer? && (t.Pointer? ==> Strip(t) == Strip(t.elem)) && (!t.Pointer? ==> Strip(t) == t)
  {
    if t.Pointer? {
      StripMeaning(t.elem);
    }
  }

  /** Pair `i` of a mapping. */
  predicate HasPair(node: Node, i: nat) {
    node.kind == Mapping && 2 * i + 1 < |node.content|
  }

  /** What a key refuses: an alias without a target, and of a mapping read as a struct every name that is
      neither a field nor a merge. */
  lemma RefusesIff(g: Graph, k: Key, e: Error)
    requires k.node in g
    ensures Refuse(e) in Edges(g, k) <==>
              var node := g[k.node];
              || (node.kind == Alias && node.target == NoTarget && e == MissingTarget)
              || (!k.merge && !node.isNull && k.target.Struct? &&
                  exists i: nat :: HasPair(node, i) && ValueOf(g, node.content[2 * i]) != "<<"
                              && ValueOf(g, node.content[2 * i]) !in k.target.fields
                              && e == UnknownField(ValueOf(g, node.content[2 * i])))
  {
    var node := g[k.node];
    if !k.merge && node.kind == Mapping && !node.isNull && (k.target.Struct? || k.target.MapOf?) {
      PairsAreEdges(g, node, k.target, Refuse(e));
    }
  }

  lemma PairsAreEdges(g: Graph, node: Node, t: Type, e: Edge)
    requires node.kind == Mapping
    ensures e in PairEdges(g, node.content, t) <==>
              exists i: nat :: HasPair(node, i) && e == PairEdge(g, ValueOf(g, node.content[2 * i]), node.content[2 * i + 1], t)
  {
    var pairs := PairEdges(g, node.content, t);
    if e in pairs {
      var i :| 0 <= i < |pairs| && pairs[i] == e;
      assert HasPair(node, i);
    }
    if i: nat :| HasPair(node, i) && e == PairEdge(g, ValueOf(g, node.content[2 * i]), node.content[2 * i + 1], t) {
      assert pairs[i] == e;
    }
  }

  lemma ItemsAreEdges(content: seq<nat>, t: Type, merge: bool, b: Key)
    ensures Visit(b) in ItemEdges(content, t, merge) <==>
              exists i :: 0 <= i < |content| && b == Key(content[i], Strip(t), merge)
  {
    var items := ItemEdges(content, t, merge);
    if i :| 0 <= i < |content| && b == Key(content[i], Strip(t), merge) {
      assert items[i] == Visit(b);
    }
  }

  /** Where a key leads: a document to its first node, an alias to its target, a merge to each of a list or
      to the node itself; a sequence to its items by the element type; and a mapping for each pair to its
      value, by the field's type or the map's, or, under the merge key, as a merge into the same type. */
  lemma LeadsIff(g: Graph, k: Key, b: Key)
    requires k.node in g
    ensures Visit(b) in Edges(g, k) <==>
              var node, t := g[k.node], k.target;
              if node.kind == Alias then node.target.TargetNode? && b == Key(node.target.node, Strip(t), k.merge)
              else if k.merge then
                if node.kind == Sequence then exists i :: 0 <= i < |node.content| && b == Key(node.content[i], Strip(t), true)
                else b == Key(k.node, Strip(t), false)
              else if node.kind == Document then node.content != [] && b == Key(node.content[0], Strip(t), false)
              else if node.isNull then false
              else if t.SliceOf? then
                node.kind == Sequence && exists i :: 0 <= i < |node.content| && b == Key(node.content[i], Strip(t.elem), false)
              else (t.Struct? || t.MapOf?) && exists i: nat :: HasPair(node, i) && PairLeads(g, node, t, i, b)
  {
    var node := g[k.node];
    if node.kind == Mapping && (k.target.Struct? || k.target.MapOf?) {
      PairsAreEdges(g, node, k.target, Visit(b));
    }
    ItemsAreEdges(node.content, k.target, true, b);
    if k.target.SliceOf? {
      ItemsAreEdges(node.content, k.target.elem, false, b);
    }
  }

  predicate PairLeads(g: Graph, node: Node, t: Type, i: nat, b: Key)
    requires HasPair(node, i)
  {
    var name, value := ValueOf(g, node.content[2 * i]), node.content[2 * i + 1];
    if name == "<<" then b == Key(value, Strip(t), true)
    else match t
      case Struct(_, fields) => name in fields && b == Key(value, Strip(fields[name]), false)
      case MapOf(elem) => b == Key(value, Strip(elem), false)
      case _ => false
  }

  /** A node asks for another, which is there. */
  ghost predicate Leads(g: Graph, a: Key, b: Key) {
    a.node in g && b.node in g && Visit(b) in Edges(g, a)
  }

  /** A path through the graph. */
  ghost predicate Path(g: Graph, p: seq<Key>) {
    && p != []
    && (forall i :: 0 <= i < |p| ==> p[i].node in g)
    && (forall i :: 0 <= i < |p| - 1 ==> Leads(g, p[i], p[i + 1]))
  }

  function End(p: seq<Key>): Key
    requires p != []
  {
    p[|p| - 1]
  }

  ghost predicate From(g: Graph, root: Key, p: seq<Key>) {
    Path(g, p) && p[0] == root
  }

  ghost predicate Refuses(g: Graph, k: Key, e: Error) {
    k.node in g && Refuse(e) in Edges(g, k)
  }

  /** The simple rule: nothing that can be reached from the root is refused, and no path comes back to
      a node it has passed. */
  ghost predicate Acceptable(g: Graph, root: Key) {
    forall p :: From(g, root, p) ==> Clean(g, p)
  }

  ghost predicate Clean(g: Graph, p: seq<Key>)
    requires Path(g, p)
  {
    && (forall e :: !Refuses(g, End(p), e))
    && (forall i :: 0 <= i < |p| ==> !Leads(g, End(p), p[i]))
  }

  /** What an error says about the graph. */
  ghost predicate Explained(g: Graph, root: Key, e: Error) {
    match e
    case UnknownField(_) => exists p :: From(g, root, p) && Refuses(g, End(p), e)
    case MissingTarget => exists p :: From(g, root, p) && Refuses(g, End(p), e)
    case Cycle => exists p, i :: From(g, root, p) && 0 <= i < |p| && Leads(g, End(p), p[i])
    case TooDeep => exists p :: TooLong(g, root, p)
    case TooManyVisits => exists taken :: Taken(g, root, taken) && |taken| >= MAX_VISITS
  }

  ghost predicate Simple(p: seq<Key>) {
    forall i, j :: 0 <= i < j < |p| ==> p[i] != p[j]
  }

  /** A path without repeats down to the last permitted level, which goes on. */
  ghost predicate TooLong(g: Graph, root: Key, p: seq<Key>) {
    From(g, root, p) && Simple(p) && |p| == MAX_DEPTH + 1 && exists k :: Leads(g, End(p), k)
  }

  ghost predicate Reachable(g: Graph, root: Key, k: Key) {
    exists p :: From(g, root, p) && End(p) == k
  }

  /** Distinct edges of keys that can be reached. */
  ghost predicate Taken(g: Graph, root: Key, taken: set<(Key, nat)>) {
    forall c :: c in taken ==> Crossable(g, root, c)
  }

  ghost predicate Crossable(g: Graph, root: Key, c: (Key, nat)) {
    c.0.node in g && c.1 < |Edges(g, c.0)| && Reachable(g, root, c.0)
  }

  /** No path without repeats is deeper than the limit, and there are fewer edges than permitted visits. */
  ghost predicate WithinLimits(g: Graph, root: Key) {
    && (forall p :: !TooLong(g, root, p))
    && (forall taken :: Taken(g, root, taken) ==> |taken| < MAX_VISITS)
  }

  // ---------- finished keys ----------

  /** Every key in the order was finished after all that it leads to, and refuses nothing. */
  ghost predicate Finished(g: Graph, order: seq<Key>) {
    forall i :: 0 <= i < |order| ==> FinishedAt(g, order[i], order[..i])
  }

  ghost predicate FinishedAt(g: Graph, k: Key, earlier: seq<Key>) {
    k.node in g && forall e :: e in Edges(g, k) ==> Met(g, e, earlier)
  }

  ghost predicate Met(g: Graph, e: Edge, earlier: seq<Key>) {
    match e
    case Visit(k) => k.node in g ==> k in earlier
    case Refuse(_) => false
  }

  function First(order: seq<Key>, k: Key): (i: nat)
    requires k in order
    ensures i < |order| && order[i] == k
    ensures forall j :: 0 <= j < i ==> order[j] != k
  {
    if order[0] == k then 0 else First(order[1..], k) + 1
  }

  /** Along an edge the place in the order goes down. */
  lemma LeadsDown(g: Graph, order: seq<Key>, a: Key, b: Key)
    requires Finished(g, order) && a in order && Leads(g, a, b)
    ensures b in order && First(order, b) < First(order, a)
  {
    var i := First(order, a);
    assert FinishedAt(g, order[i], order[..i]);
    assert Met(g, Visit(b), order[..i]);
    var j :| 0 <= j < i && order[..i][j] == b;
    assert order[j] == b;
  }

  lemma {:induction false} PathGoesDown(g: Graph, order: seq<Key>, p: seq<Key>, i: nat)
    requires Finished(g, order) && Path(g, p) && p[0] in order && i < |p|
    ensures End(p) in order && p[i] in order && First(order, End(p)) <= First(order, p[i])
    decreases |p|, |p| - i
  {
    if |p| > 1 {
      var init := p[..|p| - 1];
      PathGoesDown(g, order, init, if i < |init| then i else 0);
      LeadsDown(g, order, End(init), End(p));
    }
  }

  lemma FinishedRefusesNothing(g: Graph, k: Key, earlier: seq<Key>, e: Error)
    requires FinishedAt(g, k, earlier)
    ensures !Refuses(g, k, e)
  {
  }

  /** If the root was finished, the whole graph below it is acceptable. */
  lemma FinishedIsAcceptable(g: Graph, root: Key, order: seq<Key>)
    requires Finished(g, order) && root in order
    ensures Acceptable(g, root)
  {
    forall p | From(g, root, p)
      ensures Clean(g, p)
    {
      PathGoesDown(g, order, p, 0);
      var last := First(order, End(p));
      assert FinishedAt(g, order[last], order[..last]);
      forall e
        ensures !Refuses(g, End(p), e)
      {
        FinishedRefusesNothing(g, End(p), order[..last], e);
      }
      forall i | 0 <= i < |p|
        ensures !Leads(g, End(p), p[i])
      {
        PathGoesDown(g, order, p, i);
        if Leads(g, End(p), p[i]) {
          LeadsDown(g, order, End(p), p[i]);
        }
      }
    }
  }

  /** Refusals and cycles are never reported of an acceptable graph. */
  lemma ExplainedIsUnacceptable(g: Graph, root: Key, e: Error)
    requires Explained(g, root, e) && (e.UnknownField? || e.MissingTarget? || e.Cycle?)
    ensures !Acceptable(g, root)
  {
    if e.Cycle? {
      var p, i :| From(g, root, p) && 0 <= i < |p| && Leads(g, End(p), p[i]);
      assert !Clean(g, p);
    } else {
      var p :| From(g, root, p) && Refuses(g, End(p), e);
      assert !Clean(g, p);
    }
  }

  // ---------- the walk ----------

  /** The state of the walk at one moment. */
  datatype Snap = Snap(order: seq<Key>, validated: set<Key>, visited: nat, stack: seq<Key>, active: set<Key>, crossed: set<(Key, nat)>)

  /** The states a walk may be in: what was validated was finished in order, the active keys are a path
      from the root without repeats, and the edges taken belong to keys that can be reached. */
  ghost function Consistent(g: Graph, root: Key): iset<Snap> {
    iset s: Snap |
      && Finished(g, s.order) && (forall k :: k in s.validated <==> k in s.order)
      && (forall k :: k in s.active <==> k in s.stack)
      && (s.stack != [] ==> From(g, root, s.stack)) && Simple(s.stack)
      && Taken(g, root, s.crossed)
  }

  class Validation {
    var visited: nat
    var active: set<Key>
    var validated: set<Key>
    /** The validated keys in the order they were finished, and the active keys outermost first. */
    ghost var order: seq<Key>
    ghost var stack: seq<Key>
    /** The edges taken: a key and the place of the edge among its edges. */
    ghost var crossed: set<(Key, nat)>

    constructor ()
      ensures visited == 0 && active == {} && validated == {} && order == [] && stack == [] && crossed == {}
    {
      visited, active, validated := 0, {}, {};
      order, stack, crossed := [], [], {};
    }

    ghost predicate Valid(g: Graph, root: Key)
      reads this
    {
      Now() in Consistent(g, root)
    }

    ghost function Now(): Snap
      reads this
    {
      Snap(order, validated, visited, stack, active, crossed)
    }

    /** Edges were only taken from keys that are active or validated. */
    ghost predicate Tidy()
      reads this
    {
      forall c :: c in crossed ==> c.0 in order || c.0 in stack
    }

    /** No edge of the key from index `i` on was taken. */
    ghost predicate Untaken(k: Key, i: nat)
      reads this
    {
      forall c :: c in crossed && c.0 == k ==> c.1 < i
    }

    /** The key may be looked at next: it is the root, or the innermost active key leads to it. */
    ghost predicate Reached(g: Graph, root: Key, k: Key)
      reads this
    {
      k.node in g ==> if stack == [] then k == root else Leads(g, End(stack), k)
    }
  }

  /** Between two moments with the same active keys, more was validated, visited and taken. */
  ghost predicate Grown(at: Snap, now: Snap) {
    match at
    case Snap(order, _, visited, stack, active, crossed) =>
      && now.stack == stack && now.active == active
      && order <= now.order && visited <= now.visited && crossed <= now.crossed
  }

  /** The edges taken meanwhile belong to other keys. */
  ghost predicate Others(at: Snap, now: Snap, keys: seq<Key>) {
    match at
    case Snap(_, _, _, _, _, crossed) => forall c :: c in now.crossed && c !in crossed ==> c.0 !in keys
  }

  lemma Later(at: Snap, mid: Snap, now: Snap)
    requires Grown(at, mid) && Grown(mid, now)
    requires Others(at, mid, Outer(at.stack)) && Others(mid, now, Outer(mid.stack))
    ensures Grown(at, now) && Others(at, now, Outer(at.stack))
  {
  }

  /** What every call keeps of the walk's state. */
  twostate predicate Kept(g: Graph, root: Key, v: Validation, r: Result)
    reads v
  {
    Grown(old(v.Now()), v.Now()) && Steady(g, root, v, r)
  }

  /** The state is consistent, and as many edges were taken as keys were visited, but for the root. */
  ghost predicate Steady(g: Graph, root: Key, v: Validation, r: Result)
    reads v
  {
    match r
    case Ok => v.Valid(g, root) && v.Tidy() && v.visited <= MAX_VISITS && v.visited <= |v.crossed| + 1
    case Err(_) => v.Valid(g, root) && v.visited <= MAX_VISITS + 1 && v.visited <= |v.crossed| + 1
  }

  /** Edges taken meanwhile belong to other keys. */
  twostate predicate Foreign(v: Validation, keys: seq<Key>)
    reads v
  {
    Others(old(v.Now()), v.Now(), keys)
  }

  function Outer(stack: seq<Key>): seq<Key> {
    if stack == [] then [] else stack[..|stack| - 1]
  }

  /** What a call says of the key it was given. */
  ghost predicate Answered(g: Graph, root: Key, k: Key, r: Result, order: seq<Key>) {
    match r
    case Ok => k.node in g ==> k in order
    case Err(e) => Explained(g, root, e)
  }

  lemma StackReaches(g: Graph, root: Key, stack: seq<Key>, k: Key)
    requires k.node in g
    requires stack != [] ==> From(g, root, stack) && Leads(g, End(stack), k)
    requires stack == [] ==> k == root
    ensures From(g, root, stack + [k])
  {
    var p := stack + [k];
    forall i | 0 <= i < |p| - 1
      ensures Leads(g, p[i], p[i + 1])
    {
      assert p[i] == stack[i] && p[i + 1] == if i + 1 < |stack| then stack[i + 1] else k;
    }
  }

  /** The start of either function: limits, the memo and the cycle check. `done` says that the answer is
      known; otherwise the key is now active. */
  method Enter(g: Graph, k: Key, depth: nat, v: Validation, ghost root: Key) returns (done: bool, r: Result)
    requires v.Valid(g, root) && v.visited <= MAX_VISITS && v.Reached(g, root, k) && depth == |v.stack| <= MAX_DEPTH + 1 && k.node in g
    requires v.Tidy() && v.visited <= |v.crossed|
    modifies v
    ensures v.crossed == old(v.crossed) && v.visited <= |v.crossed| + 1 && v.Tidy()
    ensures done ==> Kept(g, root, v, r) && Answered(g, root, k, r, v.order)
    ensures !done ==> v.Untaken(k, 0)
    ensures !done ==>
              && v.Valid(g, root) && v.stack == old(v.stack) + [k] && v.active == old(v.active) + {k}
              && v.order == old(v.order) && depth <= MAX_DEPTH && k !in old(v.active)
              && old(v.visited) <= v.visited <= MAX_VISITS
  {
    done, r := true, Ok;
    StackReaches(g, root, v.stack, k);
    if depth > MAX_DEPTH {
      assert TooLong(g, root, v.stack);
      return true, Err(TooDeep);
    }
    v.visited := v.visited + 1;
    if v.visited > MAX_VISITS {
      assert Taken(g, root, v.crossed) && |v.crossed| >= MAX_VISITS;
      return true, Err(TooManyVisits);
    }
    if k in v.validated {
      return true, Ok;
    }
    if k in v.active {
      ghost var i :| 0 <= i < |v.stack| && v.stack[i] == k;
      assert Leads(g, End(v.stack), v.stack[i]);
      return true, Err(Cycle);
    }
    v.active := v.active + {k};
    v.stack := v.stack + [k];
    done := false;
  }

  /** The deferred end of either function. */
  method Leave(g: Graph, k: Key, r: Result, v: Validation, ghost root: Key)
    requires v.Valid(g, root) && v.stack != [] && End(v.stack) == k && k !in v.stack[..|v.stack| - 1]
    requires r.Ok? ==> FinishedAt(g, k, v.order)
    modifies v
    ensures v.Valid(g, root) && v.stack == old(v.stack)[..|old(v.stack)| - 1] && v.active == old(v.active) - {k}
    ensures old(v.order) <= v.order && old(v.visited) == v.visited && old(v.crossed) == v.crossed
    ensures r.Ok? ==> k in v.order && (old(v.Tidy()) ==> v.Tidy())
  {
    v.active := v.active - {k};
    v.stack := v.stack[..|v.stack| - 1];
    if r.Ok? {
      v.validated := v.validated + {k};
      ghost var before := v.order;
      v.order := v.order + [k];
      assert v.order[..|before|] == before;
      assert forall i :: 0 <= i < |before| ==> v.order[..i] == before[..i];
    }
  }

  /** The type behind its pointers. */
  method Dereference(t: Type) returns (r: Type)
    ensures r == Strip(t)
  {
    r := t;
    while r.Pointer?
      invariant Strip(r) == Strip(t)
      decreases r
    {
      r := r.elem;
    }
  }

  /** validateConfigYAMLNodeState. */
  method ValidateNode(g: Graph, node: nat, t: Type, depth: nat, v: Validation, ghost root: Key) returns (r: Result)
    requires v.Valid(g, root) && v.visited <= MAX_VISITS && v.Reached(g, root, Key(node, Strip(t), false)) && depth == |v.stack| <= MAX_DEPTH + 1
    requires v.Tidy() && v.visited <= |v.crossed|
    modifies v
    ensures Kept(g, root, v, r) && Answered(g, root, Key(node, Strip(t), false), r, v.order) && Foreign(v, v.stack)
    ensures node !in g ==> r == Ok
    decreases MAX_DEPTH + 1 - depth, 7
  {
    if node !in g {
      return Ok;
    }
    var target := Dereference(t);
    var k := Key(node, target, false);
    var done;
    done, r := Enter(g, k, depth, v, root);
    if !done {
      StripStrips(t);
      r := ValidateContent(g, k, depth, v, root);
      Leave(g, k, r, v, root);
    }
  }

  /** What a call on the innermost active key answers: all its edges are met, or an error. */
  ghost predicate Concluded(g: Graph, root: Key, k: Key, r: Result, order: seq<Key>) {
    match r
    case Ok => FinishedAt(g, k, order)
    case Err(e) => Explained(g, root, e)
  }

  /** The case analysis of validateConfigYAMLNodeState. */
  method ValidateContent(g: Graph, k: Key, depth: nat, v: Validation, ghost root: Key) returns (r: Result)
    requires Innermost(g, root, k, depth, v) && v.visited <= MAX_VISITS && v.Untaken(k, 0) && !k.merge && Strip(k.target) == k.target
    modifies v
    ensures Kept(g, root, v, r) && Concluded(g, root, k, r, v.order) && Foreign(v, Outer(v.stack))
    decreases MAX_DEPTH + 1 - depth, 6
  {
    var node := g[k.node];
    if node.kind == Document {
      if |node.content| == 0 {
        return Ok;
      }
      r := Follow(g, k, 0, node.content[0], k.target, false, depth, v, root);
      if r.Ok? {
        AllMetFinishes(g, k, 1, v.order);
      }
      return;
    }
    if node.kind == Alias {
      r := FollowTarget(g, k, node, depth, v, root);
      return;
    }
    if node.isNull {
      return Ok;
    }
    r := Ok;
    match k.target {
      case Struct(_, _) =>
        if node.kind == Mapping {
          r := ValidatePairs(g, k, node.content, depth, v, root);
        }
      case MapOf(_) =>
        if node.kind == Mapping {
          r := ValidatePairs(g, k, node.content, depth, v, root);
        }
      case SliceOf(elem) =>
        if node.kind == Sequence {
          r := ValidateItems(g, k, node.content, elem, false, depth, v, root);
        }
      case _ =>
    }
  }

  /** Notes that the edge is taken. */
  ghost method Cross(g: Graph, k: Key, i: nat, depth: nat, v: Validation, root: Key)
    requires Innermost(g, root, k, depth, v) && v.Untaken(k, i) && i < |Edges(g, k)|
    modifies v`crossed
    ensures Innermost(g, root, k, depth, v) && v.Untaken(k, i + 1) && v.visited <= |v.crossed|
    ensures v.crossed == old(v.crossed) + {(k, i)}
  {
    assert Reachable(g, root, k);
    v.crossed := v.crossed + {(k, i)};
  }

  /** The edge of the innermost active key at index `i`, taken. */
  method Follow(g: Graph, k: Key, ghost i: nat, node: nat, t: Type, merge: bool, depth: nat, v: Validation, ghost root: Key)
    returns (r: Result)
    requires Innermost(g, root, k, depth, v) && v.visited <= MAX_VISITS && v.Untaken(k, i)
    requires i < |Edges(g, k)| && AllMet(g, k, i, v.order)
    requires Edges(g, k)[i] == if merge then Merge(node, t) else Plain(node, t)
    modifies v
    ensures Kept(g, root, v, r) && (r.Ok? ==> AllMet(g, k, i + 1, v.order)) && (r.Err? ==> Explained(g, root, r.error))
    ensures v.Untaken(k, i + 1) && Foreign(v, Outer(v.stack))
    decreases MAX_DEPTH + 1 - depth, 2
  {
    assert Edges(g, k)[i] in Edges(g, k);
    ghost var before := v.order;
    Cross(g, k, i, depth, v, root);
    if merge {
      r := ValidateMerge(g, node, t, depth + 1, v, root);
    } else {
      r := ValidateNode(g, node, t, depth + 1, v, root);
    }
    AllMetGrows(g, k, i, before, v.order);
  }

  /** The key is the innermost active one, entered at this depth. */
  ghost predicate Innermost(g: Graph, root: Key, k: Key, depth: nat, v: Validation)
    reads v
  {
    && v.Valid(g, root) && v.stack != [] && End(v.stack) == k && k.node in g
    && depth + 1 == |v.stack| && depth <= MAX_DEPTH
    && v.Tidy() && v.visited <= |v.crossed| + 1
  }

  /** An edge of the innermost active key that refuses. */
  lemma Refused(g: Graph, root: Key, stack: seq<Key>, i: nat, e: Error)
    requires stack != [] && From(g, root, stack) && i < |Edges(g, End(stack))| && Edges(g, End(stack))[i] == Refuse(e)
    requires e.UnknownField? || e.MissingTarget?
    ensures Explained(g, root, e)
  {
    assert Refuses(g, End(stack), e);
  }

  /** The target of an alias. */
  method FollowTarget(g: Graph, k: Key, node: Node, depth: nat, v: Validation, ghost root: Key) returns (r: Result)
    requires Innermost(g, root, k, depth, v) && v.visited <= MAX_VISITS && v.Untaken(k, 0)
    requires Edges(g, k) == [TargetEdge(node, k.target, k.merge)]
    modifies v
    ensures Kept(g, root, v, r) && Concluded(g, root, k, r, v.order) && Foreign(v, Outer(v.stack))
    decreases MAX_DEPTH + 1 - depth, 3
  {
    match node.target {
      case NoTarget =>
        Refused(g, root, v.stack, 0, MissingTarget);
        r := Err(MissingTarget);
      case TargetNode(n) =>
        r := Follow(g, k, 0, n, k.target, k.merge, depth, v, root);
        if r.Ok? {
          AllMetFinishes(g, k, 1, v.order);
        }
    }
  }

  /** One pair of a mapping: a merge, a known field, an unknown one, or an element. */
  method ValidatePair(g: Graph, k: Key, ghost i: nat, name: string, value: nat, depth: nat, v: Validation, ghost root: Key)
    returns (r: Result)
    requires Innermost(g, root, k, depth, v) && v.visited <= MAX_VISITS && v.Untaken(k, i)
    requires i < |Edges(g, k)| && AllMet(g, k, i, v.order)
    requires Edges(g, k)[i] == PairEdge(g, name, value, k.target) && (k.target.Struct? || k.target.MapOf?)
    modifies v
    ensures Kept(g, root, v, r) && (r.Ok? ==> AllMet(g, k, i + 1, v.order)) && (r.Err? ==> Explained(g, root, r.error))
    ensures v.Untaken(k, i + 1) && Foreign(v, Outer(v.stack))
    decreases MAX_DEPTH + 1 - depth, 3
  {
    if name == "<<" {
      r := Follow(g, k, i, value, k.target, true, depth, v, root);
    } else {
      match k.target {
        case Struct(_, fields) =>
          if name !in fields {
            Refused(g, root, v.stack, i, UnknownField(name));
            return Err(UnknownField(name));
          }
          r := Follow(g, k, i, value, fields[name], false, depth, v, root);
        case MapOf(elem) =>
          r := Follow(g, k, i, value, elem, false, depth, v, root);
      }
    }
  }

  ghost predicate AllMet(g: Graph, k: Key, i: nat, order: seq<Key>)
    requires k.node in g && i <= |Edges(g, k)|
    decreases i
  {
    if i == 0 then true else AllMet(g, k, i - 1, order) && Met(g, Edges(g, k)[i - 1], order)
  }

  lemma {:induction false} AllMetGrows(g: Graph, k: Key, i: nat, order: seq<Key>, later: seq<Key>)
    requires k.node in g && i <= |Edges(g, k)| && AllMet(g, k, i, order) && order <= later
    ensures AllMet(g, k, i, later)
  {
    if i > 0 {
      AllMetGrows(g, k, i - 1, order, later);
      assert forall q :: q in order ==> q in later;
    }
  }

  lemma {:induction false} AllMetEach(g: Graph, k: Key, i: nat, order: seq<Key>, j: nat)
    requires k.node in g && j < i <= |Edges(g, k)| && AllMet(g, k, i, order)
    ensures Met(g, Edges(g, k)[j], order)
  {
    if j < i - 1 {
      AllMetEach(g, k, i - 1, order, j);
    }
  }

  lemma AllMetFinishes(g: Graph, k: Key, i: nat, order: seq<Key>)
    requires k.node in g && i == |Edges(g, k)| && AllMet(g, k, i, order)
    ensures FinishedAt(g, k, order)
  {
    forall e | e in Edges(g, k)
      ensures Met(g, e, order)
    {
      var j :| 0 <= j < |Edges(g, k)| && Edges(g, k)[j] == e;
      AllMetEach(g, k, i, order, j);
    }
  }

  /** Where a loop over the edges of the innermost active key stands before edge `i`. */
  ghost predicate Before(g: Graph, root: Key, k: Key, i: nat, depth: nat, v: Validation, at: Snap)
    requires k.node in g && i <= |Edges(g, k)|
    reads v
  {
    match at
    case Snap(_, _, _, stack, _, _) =>
      && Innermost(g, root, k, depth, v) && v.visited <= MAX_VISITS && v.Untaken(k, i) && AllMet(g, k, i, v.order)
      && Grown(at, v.Now()) && Others(at, v.Now(), Outer(stack))
  }

  /** The key's edges are the pairs of a mapping. */
  predicate Paired(g: Graph, k: Key, content: seq<nat>) {
    match k
    case Key(node, target, _) =>
      node in g && Edges(g, k) == PairEdges(g, content, target) && |Edges(g, k)| == |content| / 2 && (target.Struct? || target.MapOf?)
  }

  /** The next pair. */
  method NextPair(g: Graph, k: Key, content: seq<nat>, i: nat, depth: nat, v: Validation, ghost root: Key, ghost at: Snap)
    returns (r: Result)
    requires Paired(g, k, content) && 2 * i + 1 < |content|
    requires Before(g, root, k, i, depth, v, at)
    modifies v
    ensures Steady(g, root, v, r) && Grown(at, v.Now()) && Others(at, v.Now(), Outer(at.stack))
    ensures r.Ok? ==> Before(g, root, k, i + 1, depth, v, at)
    ensures r.Err? ==> Explained(g, root, r.error)
    decreases MAX_DEPTH + 1 - depth, 4
  {
    ghost var mid := v.Now();
    PairAt(g, content, k.target, i);
    r := ValidatePair(g, k, i, ValueOf(g, content[2 * i]), content[2 * i + 1], depth, v, root);
    Later(at, mid, v.Now());
  }

  /** The pairs of a mapping read as a struct or as a map. */
  method ValidatePairs(g: Graph, k: Key, content: seq<nat>, depth: nat, v: Validation, ghost root: Key) returns (r: Result)
    requires Innermost(g, root, k, depth, v) && v.visited <= MAX_VISITS && v.Untaken(k, 0)
    requires Edges(g, k) == PairEdges(g, content, k.target) && (k.target.Struct? || k.target.MapOf?)
    modifies v
    ensures Kept(g, root, v, r) && Concluded(g, root, k, r, v.order) && Foreign(v, Outer(v.stack))
    decreases MAX_DEPTH + 1 - depth, 5
  {
    ghost var at := v.Now();
    PairCount(g, content, k.target);
    assert Paired(g, k, content);
    var i := 0;
    while 2 * i + 1 < |content|
      invariant i <= |Edges(g, k)| && Before(g, root, k, i, depth, v, at)
    {
      r := NextPair(g, k, content, i, depth, v, root, at);
      if r.Err? {
        return;
      }
      i := i + 1;
    }
    AllMetFinishes(g, k, i, v.order);
    r := Ok;
  }

  lemma PairCount(g: Graph, content: seq<nat>, t: Type)
    ensures |PairEdges(g, content, t)| == |content| / 2
  {
  }

  lemma PairAt(g: Graph, content: seq<nat>, t: Type, i: nat)
    requires 2 * i + 1 < |content|
    ensures i < |PairEdges(g, content, t)|
    ensures PairEdges(g, content, t)[i] == PairEdge(g, ValueOf(g, content[2 * i]), content[2 * i + 1], t)
  {
  }

  /** The key's edges are the items of a sequence. */
  predicate Listed(g: Graph, k: Key, content: seq<nat>, t: Type, merge: bool) {
    match k
    case Key(node, _, _) => node in g && Edges(g, k) == ItemEdges(content, t, merge) && |Edges(g, k)| == |content|
  }

  /** The next item. */
  method NextItem(g: Graph, k: Key, content: seq<nat>, i: nat, t: Type, merge: bool, depth: nat, v: Validation, ghost root: Key, ghost at: Snap)
    returns (r: Result)
    requires Listed(g, k, content, t, merge) && i < |content|
    requires Before(g, root, k, i, depth, v, at)
    modifies v
    ensures Steady(g, root, v, r) && Grown(at, v.Now()) && Others(at, v.Now(), Outer(at.stack))
    ensures r.Ok? ==> Before(g, root, k, i + 1, depth, v, at)
    ensures r.Err? ==> Explained(g, root, r.error)
    decreases MAX_DEPTH + 1 - depth, 3
  {
    ghost var mid := v.Now();
    r := Follow(g, k, i, content[i], t, merge, depth, v, root);
    Later(at, mid, v.Now());
  }

  /** The items of a sequence, of a merge or of a list. */
  method ValidateItems(g: Graph, k: Key, content: seq<nat>, t: Type, merge: bool, depth: nat, v: Validation, ghost root: Key)
    returns (r: Result)
    requires Innermost(g, root, k, depth, v) && v.visited <= MAX_VISITS && v.Untaken(k, 0)
    requires Edges(g, k) == ItemEdges(content, t, merge)
    modifies v
    ensures Kept(g, root, v, r) && Concluded(g, root, k, r, v.order) && Foreign(v, Outer(v.stack))
    decreases MAX_DEPTH + 1 - depth, 4
  {
    ghost var at := v.Now();
    assert Listed(g, k, content, t, merge);
    var i := 0;
    while i < |content|
      invariant i <= |Edges(g, k)| && Before(g, root, k, i, depth, v, at)
    {
      r := NextItem(g, k, content, i, t, merge, depth, v, root, at);
      if r.Err? {
        return;
      }
      i := i + 1;
    }
    AllMetFinishes(g, k, i, v.order);
    r := Ok;
  }

  /** validateConfigYAMLMergeState. */
  method ValidateMerge(g: Graph, node: nat, t: Type, depth: nat, v: Validation, ghost root: Key) returns (r: Result)
    requires v.Valid(g, root) && v.visited <= MAX_VISITS && v.Reached(g, root, Key(node, Strip(t), true))
    requires depth == |v.stack| <= MAX_DEPTH + 1
    requires v.Tidy() && v.visited <= |v.crossed|
    modifies v
    ensures Kept(g, root, v, r) && Answered(g, root, Key(node, Strip(t), true), r, v.order) && Foreign(v, v.stack)
    decreases MAX_DEPTH + 1 - depth, 7
  {
    if node !in g {
      return Ok;
    }
    var target := Dereference(t);
    var k := Key(node, target, true);
    var done;
    done, r := Enter(g, k, depth, v, root);
    if !done {
      StripStrips(t);
      r := MergeContent(g, k, depth, v, root);
      Leave(g, k, r, v, root);
    }
  }

  method MergeContent(g: Graph, k: Key, depth: nat, v: Validation, ghost root: Key) returns (r: Result)
    requires Innermost(g, root, k, depth, v) && v.visited <= MAX_VISITS && v.Untaken(k, 0) && k.merge && Strip(k.target) == k.target
    modifies v
    ensures Kept(g, root, v, r) && Concluded(g, root, k, r, v.order) && Foreign(v, Outer(v.stack))
    decreases MAX_DEPTH + 1 - depth, 6
  {
    var node := g[k.node];
    match node.kind {
      case Alias => r := FollowTarget(g, k, node, depth, v, root);
      case Sequence => r := ValidateItems(g, k, node.content, k.target, true, depth, v, root);
      case _ =>
        r := Follow(g, k, 0, k.node, k.target, false, depth, v, root);
        if r.Ok? {
          AllMetFinishes(g, k, 1, v.order);
        }
    }
  }

  lemma {:induction false} StripStrips(t: Type)
    ensures !Strip(t).Pointer? && Strip(Strip(t)) == Strip(t)
  {
    match t {
      case Pointer(elem) => StripStrips(elem);
      case _ =>
    }
  }

  /**
    validateConfigYAMLNode. A file whose graph is within the limits is accepted exactly when the simple
    rule accepts it: the depth limit is hit only if some path without repeats goes that deep, the visit
    limit only if that many distinct edges can be reached, however often aliases share them.
  */
  method Validate(g: Graph, node: nat, t: Type) returns (r: Result)
    ensures node !in g ==> r == Ok
    ensures node in g && r == Ok ==> Acceptable(g, Key(node, Strip(t), false))
    ensures node in g && r.Err? ==> Explained(g, Key(node, Strip(t), false), r.error)
    ensures node in g && r != Err(TooDeep) && r != Err(TooManyVisits) ==>
              (r == Ok <==> Acceptable(g, Key(node, Strip(t), false)))
    ensures node in g && WithinLimits(g, Key(node, Strip(t), false)) ==>
              (r == Ok <==> Acceptable(g, Key(node, Strip(t), false)))
  {
    ghost var root := Key(node, Strip(t), false);
    var v := new Validation();
    r := ValidateNode(g, node, t, 0, v, root);
    if node in g {
      match r {
        case Ok => FinishedIsAcceptable(g, root, v.order);
        case Err(e) =>
          if e != TooDeep && e != TooManyVisits {
            ExplainedIsUnacceptable(g, root, e);
          }
      }
    }
  }
}
