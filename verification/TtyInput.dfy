/**
  The terminal dispatcher: one reader's bytes go to an Esc watcher, or, while a prompt holds a lease,
  to that prompt (internal/app/tty_input.go:76-213). Channels are unbuffered, so every send and receive
  is one joint step of the machine.
*/
module TtyInput {
  type Byte = b: int | 0 <= b < 256

  const ESC: Byte := 27
  const CR: Byte := 13
  const LF: Byte := 10

  /** Where the dispatcher's loop is: no lease, a lease, a lease and one byte in hand, or returned. */
  datatype Stage = Idle | Active(lease: nat) | Holding(lease: nat, value: Byte) | Done

  /** Where the holder of a lease is: acquirePrompt, between acquire and release, or release. */
  datatype Client = Fresh | Asking | Granted | Releasing | Gone

  /** Of each lease: its client, the bytes its prompt received, and the interval of taken bytes during
      which it was the active one. `taken` is everything received from the reader. */
  datatype Lease = Lease(client: Client, received: seq<Byte>, from: nat, to: nat)

  datatype State = State(stage: Stage, leases: seq<Lease>, taken: seq<Byte>, interrupts: nat)

  function SetLease(s: State, l: nat, lease: Lease): State
    requires l < |s.leases|
  {
    s.(leases := s.leases[l := lease])
  }

  function SetClient(s: State, l: nat, client: Client): State
    requires l < |s.leases|
  {
    SetLease(s, l, s.leases[l].(client := client))
  }

  function Interrupt(s: State): State {
    s.(stage := Done, interrupts := s.interrupts + 1)
  }

  datatype Event =
    | Ask(lease: nat)
    | GiveUp(lease: nat)
    | Acquire(lease: nat)
    | Take(value: Byte)
    | Deliver
    | AskRelease(lease: nat)
    | Release(lease: nat)
    | Stop

  /** The event can happen now. */
  predicate Enabled(s: State, e: Event) {
    match e
    case Ask(l) => l < |s.leases| && s.leases[l].client == Fresh
    case GiveUp(l) => l < |s.leases| && s.leases[l].client == Asking
    case Acquire(l) => s.stage == Idle && l < |s.leases| && s.leases[l].client == Asking
    case Take(_) => s.stage == Idle || s.stage.Active?
    case Deliver => s.stage.Holding? && s.stage.lease < |s.leases| && s.leases[s.stage.lease].client == Granted
    case AskRelease(l) => l < |s.leases| && s.leases[l].client == Granted
    case Release(l) => (s.stage.Active? || s.stage.Holding?) && l < |s.leases| && s.leases[l].client == Releasing
    case Stop => s.stage != Done
  }

  /** The active lease has seen one more byte taken. */
  function Widen(s: State, l: nat, value: Byte): State
    requires l < |s.leases|
  {
    SetLease(s, l, s.leases[l].(to := |s.taken| + 1)).(taken := s.taken + [value])
  }

  function Next(s: State, e: Event): State
    requires Enabled(s, e)
  {
    match e
    case Ask(l) => SetClient(s, l, Asking)
    case GiveUp(l) => SetClient(s, l, Gone)
    case Acquire(l) => SetLease(s, l, Lease(Granted, [], |s.taken|, |s.taken|)).(stage := Active(l))
    case Take(v) =>
      if s.stage == Idle then
        var t := s.(taken := s.taken + [v]);
        if v == ESC then Interrupt(t) else t
      else if s.stage.lease < |s.leases| then Widen(s, s.stage.lease, v).(stage := Holding(s.stage.lease, v))
      else s
    case Deliver =>
      var l := s.stage.lease;
      SetLease(s, l, s.leases[l].(received := s.leases[l].received + [s.stage.value])).(stage := Active(l))
    case AskRelease(l) => SetClient(s, l, Releasing)
    case Release(l) =>
      var t := SetClient(s, l, Gone);
      if s.stage.Active? then (if l == s.stage.lease then t.(stage := Idle) else t)
      else if s.stage.value == ESC then Interrupt(t)
      else if l == s.stage.lease then t.(stage := Idle)
      else t.(stage := Active(s.stage.lease))
    case Stop => s.(stage := Done)
  }

  predicate Holds(client: Client) {
    client == Granted || client == Releasing
  }

  function Current(stage: Stage): int {
    match stage
    case Active(l) => l
    case Holding(l, _) => l
    case _ => -1
  }

  /** A lease received the bytes of its interval in order, but for at most the last one. */
  predicate Received(s: State, l: nat)
    requires l < |s.leases|
  {
    var lease := s.leases[l];
    && lease.from <= lease.to <= |s.taken|
    && (lease.received == s.taken[lease.from..lease.to]
        || (lease.from < lease.to && lease.received == s.taken[lease.from..lease.to - 1]))
  }

  predicate Within(s: State, l: nat, k: nat) {
    l < |s.leases| && s.leases[l].from <= k < s.leases[l].to
  }

  /** What is known of one lease. */
  predicate LeaseOk(s: State, l: nat)
    requires l < |s.leases|
  {
    var lease := s.leases[l];
    && Received(s, l)
    && (lease.client == Fresh || lease.client == Asking ==> lease.from == lease.to)
    && (s.stage != Done ==> (Holds(lease.client) <==> Current(s.stage) == l))
    && (s.stage == Active(l) ==> lease.to == |s.taken| && lease.received == s.taken[lease.from..])
    && (s.stage.Holding? && s.stage.lease == l ==>
          && lease.from < lease.to == |s.taken|
          && lease.received == s.taken[lease.from..lease.to - 1] && s.stage.value == s.taken[lease.to - 1])
  }

  ghost predicate Inv(s: State) {
    && (forall l :: 0 <= l < |s.leases| ==> LeaseOk(s, l))
    && (forall l, m :: 0 <= l < |s.leases| && 0 <= m < |s.leases| && l != m ==> Apart(s.leases[l], s.leases[m]))
    && (Current(s.stage) >= 0 ==> Current(s.stage) < |s.leases| && Latest(s, Current(s.stage)))
    && s.interrupts <= (if s.stage == Done then 1 else 0)
  }

  /** Two leases were active over intervals that do not overlap. */
  predicate Apart(a: Lease, b: Lease) {
    a.from == a.to || b.from == b.to || a.to <= b.from || b.to <= a.from
  }

  /** Every other lease's interval was over when this one's began. */
  ghost predicate Latest(s: State, l: nat)
    requires l < |s.leases|
  {
    forall m :: 0 <= m < |s.leases| && m != l ==> s.leases[m].from == s.leases[m].to || s.leases[m].to <= s.leases[l].from
  }

  function Start(leases: nat): State {
    State(Idle, seq(leases, _ => Lease(Fresh, [], 0, 0)), [], 0)
  }

  lemma StartOk(leases: nat)
    ensures Inv(Start(leases))
  {
  }

  /** The branch for a release by anyone but the active lease is dead. */
  lemma ReleasesAreByTheHolder(s: State, l: nat)
    requires Inv(s) && Enabled(s, Release(l))
    ensures Current(s.stage) == l
  {
    assert LeaseOk(s, l);
  }

  lemma TakeKeeps(s: State, v: Byte)
    requires Inv(s) && Enabled(s, Take(v))
    ensures Inv(Next(s, Take(v)))
  {
    var t := Next(s, Take(v));
    assert t.taken == s.taken + [v];
    forall l | 0 <= l < |s.leases|
      ensures LeaseOk(t, l)
    {
      assert LeaseOk(s, l);
      var lease := s.leases[l];
      assert forall a, b :: 0 <= a <= b <= |s.taken| ==> t.taken[a..b] == s.taken[a..b];
      if s.stage == Active(l) {
        assert t.taken[lease.from..|t.taken| - 1] == s.taken[lease.from..];
      }
    }
  }

  lemma DeliverKeeps(s: State)
    requires Inv(s) && Enabled(s, Deliver)
    ensures Inv(Next(s, Deliver))
  {
    var t := Next(s, Deliver);
    var l := s.stage.lease;
    assert LeaseOk(s, l);
    var lease := s.leases[l];
    assert s.taken[lease.from..lease.to - 1] + [s.taken[lease.to - 1]] == s.taken[lease.from..];
    forall m | 0 <= m < |s.leases|
      ensures LeaseOk(t, m)
    {
      assert LeaseOk(s, m);
    }
  }

  lemma ReleaseKeeps(s: State, l: nat)
    requires Inv(s) && Enabled(s, Release(l))
    ensures Inv(Next(s, Release(l)))
  {
    ReleasesAreByTheHolder(s, l);
    FreeKeeps(s, l);
    if s.stage.Holding? && s.stage.value == ESC {
      InterruptKeeps(SetClient(s, l, Gone), s);
    }
  }

  /** The active lease is gone and nothing was in hand, or it was dropped. */
  lemma FreeKeeps(s: State, l: nat)
    requires Inv(s) && l < |s.leases| && Current(s.stage) == l
    ensures Inv(SetClient(s, l, Gone).(stage := Idle))
  {
    var t := SetClient(s, l, Gone).(stage := Idle);
    forall m | 0 <= m < |s.leases|
      ensures LeaseOk(t, m)
    {
      assert LeaseOk(s, m);
    }
  }

  lemma InterruptKeeps(t: State, s: State)
    requires Inv(t.(stage := Idle)) && t.interrupts == s.interrupts && Inv(s) && s.stage != Done
    ensures Inv(Interrupt(t))
  {
    forall m | 0 <= m < |t.leases|
      ensures LeaseOk(Interrupt(t), m)
    {
      assert LeaseOk(t.(stage := Idle), m);
    }
  }

  lemma AcquireKeeps(s: State, l: nat)
    requires Inv(s) && Enabled(s, Acquire(l))
    ensures Inv(Next(s, Acquire(l)))
  {
    var t := Next(s, Acquire(l));
    forall m | 0 <= m < |s.leases|
      ensures LeaseOk(t, m) && s.leases[m].to <= |s.taken|
    {
      assert LeaseOk(s, m);
    }
  }

  lemma ClientKeeps(s: State, e: Event)
    requires Inv(s) && Enabled(s, e) && (e.Ask? || e.GiveUp? || e.AskRelease? || e.Stop?)
    ensures Inv(Next(s, e))
  {
    match e {
      case Ask(l) => SetClientKeeps(s, l, Asking);
      case GiveUp(l) => SetClientKeeps(s, l, Gone);
      case AskRelease(l) => SetClientKeeps(s, l, Releasing);
      case Stop => StopKeeps(s);
    }
  }

  /** A client that goes on without the dispatcher. */
  lemma SetClientKeeps(s: State, l: nat, client: Client)
    requires Inv(s) && l < |s.leases| && (Holds(client) <==> Holds(s.leases[l].client))
    requires client == Asking ==> s.leases[l].client == Fresh
    requires client != Fresh
    ensures Inv(SetClient(s, l, client))
  {
    forall m | 0 <= m < |s.leases|
      ensures LeaseOk(SetClient(s, l, client), m)
    {
      assert LeaseOk(s, m);
    }
  }

  lemma StopKeeps(s: State)
    requires Inv(s) && s.stage != Done
    ensures Inv(Next(s, Stop))
  {
    forall m | 0 <= m < |s.leases|
      ensures LeaseOk(Next(s, Stop), m)
    {
      assert LeaseOk(s, m);
    }
  }

  lemma NextKeeps(s: State, e: Event)
    requires Inv(s) && Enabled(s, e)
    ensures Inv(Next(s, e))
  {
    match e {
      case Take(v) => TakeKeeps(s, v);
      case Deliver => DeliverKeeps(s);
      case Release(l) => ReleaseKeeps(s, l);
      case Acquire(l) => AcquireKeeps(s, l);
      case _ => ClientKeeps(s, e);
    }
  }

  datatype Run = Begin(leases: nat) | Then(before: Run, event: Event)

  /** The states a run reaches; an event that cannot happen changes nothing. */
  function Reach(run: Run): State {
    match run
    case Begin(leases) => Start(leases)
    case Then(before, e) => if Enabled(Reach(before), e) then Next(Reach(before), e) else Reach(before)
  }

  lemma {:induction false} RunKeeps(run: Run)
    ensures Inv(Reach(run))
  {
    match run {
      case Begin(leases) => StartOk(leases);
      case Then(before, e) =>
        RunKeeps(before);
        if Enabled(Reach(before), e) {
          NextKeeps(Reach(before), e);
        }
    }
  }

  /** At most one prompt holds an active lease. */
  lemma OneActiveLease(run: Run, l: nat, m: nat)
    requires
      var s := Reach(run);
      l < |s.leases| && m < |s.leases| && s.stage != Done && Holds(s.leases[l].client) && Holds(s.leases[m].client)
    ensures l == m
  {
    RunKeeps(run);
    assert LeaseOk(Reach(run), l) && LeaseOk(Reach(run), m);
  }

  /** A lease receives, in order, exactly the consecutive bytes taken while it was active, except at most
      the one in hand when it was released or the dispatcher stopped. */
  lemma LeaseReceivesItsBytes(run: Run, l: nat)
    requires l < |Reach(run).leases|
    ensures
      var s := Reach(run);
      Received(s, l) && (s.stage == Active(l) ==> s.leases[l].received == s.taken[s.leases[l].from..])
  {
    RunKeeps(run);
    assert LeaseOk(Reach(run), l);
  }

  /** No byte is given to two consumers. */
  lemma NoByteGivenTwice(run: Run, l: nat, m: nat, k: nat)
    requires Within(Reach(run), l, k) && Within(Reach(run), m, k)
    ensures l == m
  {
    if l != m {
      LeasesApart(run, l, m);
    }
  }

  lemma LeasesApart(run: Run, l: nat, m: nat)
    requires l < |Reach(run).leases| && m < |Reach(run).leases| && l != m
    ensures Apart(Reach(run).leases[l], Reach(run).leases[m])
  {
    RunKeeps(run);
  }

  /** The interrupt callback fires at most once, and nothing happens after it. */
  lemma {:induction false} InterruptsOnce(run: Run)
    ensures Reach(run).interrupts <= 1
    ensures Reach(run).interrupts == 1 ==> Reach(run).stage == Done
  {
    RunKeeps(run);
  }

  /** An Esc taken while no lease is active interrupts. */
  lemma EscapeInterrupts(run: Run)
    requires Reach(run).stage == Idle
    ensures Reach(Then(run, Take(ESC))).interrupts == 1
  {
    RunKeeps(run);
  }

  /** A byte taken while no lease is active is kept by nobody: an Esc ends the dispatcher through the
      callback, any other byte changes nothing else. */
  lemma TakenWithoutLease(run: Run, v: Byte)
    requires Reach(run).stage == Idle
    ensures
      var s, t := Reach(run), Reach(Then(run, Take(v)));
      && t.taken == s.taken + [v] && t.leases == s.leases
      && (v == 27 ==> t.interrupts == 1 && t.stage == Done)
      && (v != 27 ==> t.interrupts == 0 && t.stage == Idle)
  {
    RunKeeps(run);
  }

  /** A release ends the lease with what its prompt received so far. A byte in hand then goes to nobody: an
      Esc ends the dispatcher through the callback, any other byte is lost. */
  lemma ReleaseDecides(run: Run, l: nat)
    requires Enabled(Reach(run), Release(l))
    ensures
      var s, t := Reach(run), Reach(Then(run, Release(l)));
      && t.taken == s.taken && t.leases == s.leases[l := s.leases[l].(client := Gone)]
      && (s.stage == Holding(l, 27) ==> t.interrupts == 1 && t.stage == Done)
      && (s.stage != Holding(l, 27) ==> t.interrupts == 0 && t.stage == Idle)
  {
    RunKeeps(run);
    ReleasesAreByTheHolder(Reach(run), l);
  }

  /** The two ways an Esc reaches the watcher. */
  predicate Watched(s: State, e: Event) {
    (s.stage == Idle && e == Take(27)) || (e.Release? && s.stage.Holding? && s.stage.value == 27)
  }

  /** Some step of the run was one of them. */
  predicate EscapeWatched(run: Run) {
    match run
    case Begin(_) => false
    case Then(before, e) => EscapeWatched(before) || (Enabled(Reach(before), e) && Watched(Reach(before), e))
  }

  /** The interrupt callback fires exactly when an Esc was taken without a lease, or was in hand when its
      lease was released; what a prompt receives never fires it. */
  lemma {:induction false} InterruptedIff(run: Run)
    ensures Reach(run).interrupts == 1 <==> EscapeWatched(run)
    ensures Reach(run).interrupts == 0 <==> !EscapeWatched(run)
  {
    match run {
      case Begin(_) =>
      case Then(before, e) =>
        InterruptedIff(before);
        RunKeeps(before);
        InterruptsOnce(run);
    }
  }

  /** An idle dispatcher grants a prompt its lease, and hands it whatever bytes come next, Esc or not. */
  lemma {:induction false} PromptReads(run: Run, l: nat, bytes: seq<Byte>) returns (run': Run)
    requires l < |Reach(run).leases| && Reach(run).stage == Idle && Reach(run).leases[l].client == Fresh
    ensures
      var s, t := Reach(run), Reach(run');
      && t.stage == Active(l) && l < |t.leases| && t.leases[l].client == Granted && t.leases[l].received == bytes
      && t.taken == s.taken + bytes && t.interrupts == s.interrupts
    decreases |bytes|
  {
    if bytes == [] {
      run' := Then(Then(run, Ask(l)), Acquire(l));
    } else {
      var last := |bytes| - 1;
      var before := PromptReads(run, l, bytes[..last]);
      run' := Then(Then(before, Take(bytes[last])), Deliver);
      assert bytes == bytes[..last] + [bytes[last]];
    }
  }

  // ---------- reading a line ----------

  predicate EndsLine(b: Byte) {
    b == CR || b == LF
  }

  /** readLine over the bytes a lease receives: the bytes before the first line end, which is consumed. */
  method ReadLine(input: seq<Byte>) returns (line: seq<Byte>, rest: seq<Byte>, complete: bool)
    ensures forall i :: 0 <= i < |line| ==> !EndsLine(line[i])
    ensures if complete then exists end :: EndsLine(end) && input == line + [end] + rest else input == line && rest == []
  {
    line := [];
    for i := 0 to |input|
      invariant line == input[..i]
      invariant forall k :: 0 <= k < i ==> !EndsLine(input[k])
    {
      if EndsLine(input[i]) {
        assert input == line + [input[i]] + input[i + 1..];
        return line, input[i + 1..], true;
      }
      line := line + [input[i]];
    }
    rest, complete := [], false;
  }
}
