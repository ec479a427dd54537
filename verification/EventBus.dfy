/**
  The event bus: drop accounting of a lossy subscriber under concurrent publishers, and the ordered
  delivery of a lossless one up to a drain barrier
  (internal/events/events.go:54-143, internal/app/app.go:410-416, 2656-2687).
*/
module EventBus {
  /** What a lossy subscriber's channel carries: events, and notices of dropped ones. */
  datatype Item = Real(event: nat) | Notice(dropped: int)

  /** Where a publisher is in subscriber.send. Each step is one atomic access or one channel attempt. */
  datatype Stage =
    | Idle
    | Loading(event: nat)
    | Swapping(event: nat)
    | Notifying(event: nat, claim: int)
    | GivingBack(claim: int)
    | Offering(event: nat)
    | Dropping
    | Totalling

  /** A lossy subscriber and the publishers inside send. `sent` is everything ever put in the channel
      and `totals` the drop count when each item was put there; `sends` counts the calls of send. An
      unbuffered channel takes an item exactly when its reader is already `waiting`. */
  datatype Lossy = Lossy(
    capacity: nat,
    queue: seq<Item>,
    waiting: bool,
    pending: int,
    total: int,
    stages: seq<Stage>,
    sent: seq<Item>,
    totals: seq<int>,
    sends: nat)

  predicate HasRoom(s: Lossy) {
    |s.queue| < s.capacity || (s.capacity == 0 && s.waiting)
  }

  /** The item goes into the buffer, or straight to the waiting reader. */
  function Put(s: Lossy, item: Item): Lossy {
    s.(queue := if s.capacity == 0 then s.queue else s.queue + [item], waiting := false,
       sent := s.sent + [item], totals := s.totals + [s.total])
  }

  function Move(s: Lossy, t: nat, stage: Stage): Lossy
    requires t < |s.stages|
  {
    s.(stages := s.stages[t := stage])
  }

  /** The next atomic step of publisher `t`; an idle publisher calls send with `event`. */
  function Step(s: Lossy, t: nat, event: nat): Lossy
    requires t < |s.stages|
  {
    match s.stages[t]
    case Idle => Move(s, t, Loading(event)).(sends := s.sends + 1)
    case Loading(e) => Move(s, t, if s.pending > 0 then Swapping(e) else Offering(e))
    case Swapping(e) => Move(s, t, if s.pending > 0 then Notifying(e, s.pending) else Offering(e)).(pending := 0)
    case Notifying(e, claim) =>
      if HasRoom(s) then Move(Put(s, Notice(claim)), t, Offering(e)) else Move(s, t, GivingBack(claim))
    case GivingBack(claim) => Move(s, t, Dropping).(pending := s.pending + claim)
    case Offering(e) => if HasRoom(s) then Move(Put(s, Real(e)), t, Idle) else Move(s, t, Dropping)
    case Dropping => Move(s, t, Totalling).(pending := s.pending + 1)
    case Totalling => Move(s, t, Idle).(total := s.total + 1)
  }

  /** The reader takes the oldest item. */
  function Receive(s: Lossy): Lossy
    requires s.queue != []
  {
    s.(queue := s.queue[1..])
  }

  ghost predicate Next(s: Lossy, s': Lossy) {
    || (exists t, event :: 0 <= t < |s.stages| && s' == Step(s, t, event))
    || (s.queue != [] && s' == Receive(s))
    || (s.capacity == 0 && s' == s.(waiting := true))
  }

  function Fresh(capacity: nat, publishers: nat): Lossy {
    Lossy(capacity, [], false, 0, 0, seq(publishers, _ => Idle), [], [], 0)
  }

  // ---------- counting ----------

  /** Drops a publisher has taken off the counter and not yet reported or given back. */
  function Claim(stage: Stage): int {
    match stage
    case Notifying(_, claim) => claim
    case GivingBack(claim) => claim
    case _ => 0
  }

  function Claims(stages: seq<Stage>): int {
    if stages == [] then 0 else Claims(stages[..|stages| - 1]) + Claim(stages[|stages| - 1])
  }

  /** Publishers between the two increments of drop. */
  function HalfDropped(stages: seq<Stage>): int {
    if stages == [] then 0
    else HalfDropped(stages[..|stages| - 1]) + (if stages[|stages| - 1].Totalling? then 1 else 0)
  }

  function Busy(stages: seq<Stage>): int {
    if stages == [] then 0 else Busy(stages[..|stages| - 1]) + (if stages[|stages| - 1].Idle? then 0 else 1)
  }

  function Noticed(items: seq<Item>, n: nat): int
    requires n <= |items|
  {
    if n == 0 then 0
    else Noticed(items, n - 1) + (match items[n - 1] case Notice(dropped) => dropped case Real(_) => 0)
  }

  function Reals(items: seq<Item>, n: nat): int
    requires n <= |items|
  {
    if n == 0 then 0 else Reals(items, n - 1) + (if items[n - 1].Real? then 1 else 0)
  }

  lemma {:induction false} CountsMove(stages: seq<Stage>, t: nat, stage: Stage)
    requires t < |stages|
    ensures Claims(stages[t := stage]) == Claims(stages) - Claim(stages[t]) + Claim(stage)
    ensures HalfDropped(stages[t := stage])
            == HalfDropped(stages) - (if stages[t].Totalling? then 1 else 0) + (if stage.Totalling? then 1 else 0)
    ensures Busy(stages[t := stage]) == Busy(stages) - (if stages[t].Idle? then 0 else 1) + (if stage.Idle? then 0 else 1)
    decreases |stages|
  {
    var last := |stages| - 1;
    if t < last {
      CountsMove(stages[..last], t, stage);
      assert stages[t := stage][..last] == stages[..last][t := stage];
    } else {
      assert stages[t := stage][..last] == stages[..last];
    }
  }

  lemma {:induction false} CountsPrefix(a: seq<Item>, b: seq<Item>, n: nat)
    requires n <= |a| && n <= |b| && forall k :: 0 <= k < n ==> a[k] == b[k]
    ensures Noticed(a, n) == Noticed(b, n) && Reals(a, n) == Reals(b, n)
  {
    if n > 0 {
      CountsPrefix(a, b, n - 1);
    }
  }

  lemma CountsPut(items: seq<Item>, item: Item)
    ensures Noticed(items + [item], |items| + 1) == Noticed(items, |items|) + (match item case Notice(d) => d case Real(_) => 0)
    ensures Reals(items + [item], |items| + 1) == Reals(items, |items|) + (if item.Real? then 1 else 0)
  {
    CountsPrefix(items + [item], items, |items|);
  }

  // ---------- conservation ----------

  /** Every drop is pending, claimed by a publisher, or told to the reader; every call of send put its
      event in the channel, dropped it, or is still under way. */
  ghost predicate Conserved(s: Lossy) {
    && s.total + HalfDropped(s.stages) == s.pending + Claims(s.stages) + Noticed(s.sent, |s.sent|)
    && s.sends == Reals(s.sent, |s.sent|) + s.total + Busy(s.stages)
  }

  ghost predicate Inv(s: Lossy) {
    && s.pending >= 0
    && (forall t :: 0 <= t < |s.stages| ==> ClaimOk(s.stages[t]))
    && |s.totals| == |s.sent|
    && |s.queue| <= s.capacity
    && Conserved(s)
  }

  predicate ClaimOk(stage: Stage) {
    (stage.Notifying? || stage.GivingBack?) ==> stage.claim > 0
  }

  lemma {:induction false} IdleCounts(n: nat)
    ensures
      var stages := seq(n, _ => Idle);
      Claims(stages) == 0 && HalfDropped(stages) == 0 && Busy(stages) == 0
  {
    if n > 0 {
      IdleCounts(n - 1);
      assert seq(n, _ => Idle)[..n - 1] == seq(n - 1, _ => Idle);
    }
  }

  lemma FreshInv(capacity: nat, publishers: nat)
    ensures Inv(Fresh(capacity, publishers))
  {
    IdleCounts(publishers);
  }

  lemma StepInv(s: Lossy, t: nat, event: nat)
    requires Inv(s) && t < |s.stages|
    ensures Inv(Step(s, t, event))
  {
    StepConserves(s, t, event);
    StepBounded(s, t, event);
  }

  lemma StepBounded(s: Lossy, t: nat, event: nat)
    requires Inv(s) && t < |s.stages|
    ensures
      var s' := Step(s, t, event);
      && s'.pending >= 0 && |s'.totals| == |s'.sent| && |s'.queue| <= s'.capacity
      && forall u :: 0 <= u < |s'.stages| ==> ClaimOk(s'.stages[u])
  {
    assert ClaimOk(s.stages[t]);
  }

  lemma StepConserves(s: Lossy, t: nat, event: nat)
    requires Conserved(s) && t < |s.stages| && s.pending >= 0
    ensures Conserved(Step(s, t, event))
  {
    var s' := Step(s, t, event);
    CountsMove(s.stages, t, s'.stages[t]);
    StepSends(s, t, event);
  }

  /** What a step adds to the channel, counted. */
  lemma StepSends(s: Lossy, t: nat, event: nat)
    requires t < |s.stages|
    ensures
      var s' := Step(s, t, event);
      && s'.stages == s.stages[t := s'.stages[t]]
      && Noticed(s'.sent, |s'.sent|) == Noticed(s.sent, |s.sent|)
           + (if s.stages[t].Notifying? && HasRoom(s) then s.stages[t].claim else 0)
      && Reals(s'.sent, |s'.sent|) == Reals(s.sent, |s.sent|) + (if s.stages[t].Offering? && HasRoom(s) then 1 else 0)
  {
    match s.stages[t] {
      case Notifying(_, claim) => CountsPut(s.sent, Notice(claim));
      case Offering(e) => CountsPut(s.sent, Real(e));
      case _ =>
    }
  }

  datatype Run = Start(first: Lossy) | Then(before: Run, state: Lossy)

  function Last(run: Run): Lossy {
    match run
    case Start(s) => s
    case Then(_, s) => s
  }

  function First(run: Run): Lossy {
    match run
    case Start(s) => s
    case Then(before, _) => First(before)
  }

  /** A run of a subscriber with this buffer and this many publishers. */
  ghost predicate FromFresh(run: Run, capacity: nat, publishers: nat) {
    ValidRun(run) && First(run) == Fresh(capacity, publishers)
  }

  ghost predicate ValidRun(run: Run) {
    match run
    case Start(s) => exists capacity, publishers :: s == Fresh(capacity, publishers)
    case Then(before, s) => ValidRun(before) && Next(Last(before), s)
  }

  /** Over every interleaving, nothing is lost count of and the pending count is never negative. */
  lemma {:induction false} RunConserves(run: Run)
    requires ValidRun(run)
    ensures Inv(Last(run))
  {
    match run {
      case Start(s) =>
        var capacity, publishers :| s == Fresh(capacity, publishers);
        FreshInv(capacity, publishers);
      case Then(before, s') =>
        RunConserves(before);
        var s := Last(before);
        if t, event :| 0 <= t < |s.stages| && s' == Step(s, t, event) {
          StepInv(s, t, event);
        }
    }
  }

  /** Once no publisher is inside send, drops are exactly the pending ones and those in notices, and
      every event sent was put in the channel or dropped. */
  lemma QuietAccounts(run: Run)
    requires ValidRun(run) && forall t :: 0 <= t < |Last(run).stages| ==> Last(run).stages[t].Idle?
    ensures
      var s := Last(run);
      && s.total == s.pending + Noticed(s.sent, |s.sent|)
      && s.sends == Reals(s.sent, |s.sent|) + s.total
  {
    RunConserves(run);
    QuietCounts(Last(run).stages);
  }

  lemma {:induction false} QuietCounts(stages: seq<Stage>)
    requires forall t :: 0 <= t < |stages| ==> stages[t].Idle?
    ensures Claims(stages) == HalfDropped(stages) == Busy(stages) == 0
    decreases |stages|
  {
    if stages != [] {
      QuietCounts(stages[..|stages| - 1]);
    }
  }

  /** The channel is in order: what is in it are the last things put there, and the reader, who takes the
      oldest, got the first ones. */
  ghost predicate InOrder(s: Lossy) {
    |s.queue| <= |s.sent| && s.queue == s.sent[|s.sent| - |s.queue|..]
  }

  lemma {:induction false} ChannelInOrder(run: Run)
    requires ValidRun(run)
    ensures InOrder(Last(run)) && |Last(run).queue| <= Last(run).capacity
  {
    RunConserves(run);
    match run {
      case Start(_) =>
      case Then(before, s') =>
        ChannelInOrder(before);
        RunConserves(before);
        var s := Last(before);
        if t, event :| 0 <= t < |s.stages| && s' == Step(s, t, event) {
          StepInOrder(s, t, event);
        }
    }
  }

  lemma StepInOrder(s: Lossy, t: nat, event: nat)
    requires InOrder(s) && |s.queue| <= s.capacity && t < |s.stages|
    ensures InOrder(Step(s, t, event))
  {
    match s.stages[t] {
      case Notifying(_, claim) => PutInOrder(s, Notice(claim));
      case Offering(e) => PutInOrder(s, Real(e));
      case _ =>
    }
  }

  lemma PutInOrder(s: Lossy, item: Item)
    requires InOrder(s) && |s.queue| <= s.capacity
    ensures InOrder(Put(s, item))
  {
    if s.capacity == 0 {
      assert Put(s, item).queue == [];
    } else {
      var n := |s.sent| - |s.queue|;
      assert (s.sent + [item])[n..] == s.sent[n..] + [item];
    }
  }

  // ---------- one publisher ----------

  /** Every event in the channel was put there after notices for exactly the drops so far. */
  ghost predicate Told(s: Lossy) {
    |s.totals| == |s.sent| && forall k :: 0 <= k < |s.sent| && s.sent[k].Real? ==> Noticed(s.sent, k) == s.totals[k]
  }

  /** A lone publisher about to offer its event has nothing left to tell. */
  ghost predicate Alone(s: Lossy) {
    && |s.stages| == 1
    && (s.stages[0].Offering? ==> s.pending == 0)
    && (s.stages[0].Notifying? ==> s.pending == 0)
    && (s.stages[0].GivingBack? ==> s.pending == 0)
  }

  lemma OneStage(stages: seq<Stage>)
    requires |stages| == 1
    ensures Claims(stages) == Claim(stages[0]) && HalfDropped(stages) == if stages[0].Totalling? then 1 else 0
  {
    assert stages[..0] == [];
  }

  lemma PutTold(s: Lossy, item: Item)
    requires Told(s) && (item.Real? ==> Noticed(s.sent, |s.sent|) == s.total)
    ensures Told(Put(s, item))
  {
    var sent := Put(s, item).sent;
    forall k | 0 <= k < |sent| && sent[k].Real?
      ensures Noticed(sent, k) == Put(s, item).totals[k]
    {
      CountsPrefix(sent, s.sent, k);
    }
  }

  lemma AloneStep(s: Lossy, event: nat)
    requires Inv(s) && Alone(s) && Told(s)
    ensures Alone(Step(s, 0, event)) && Told(Step(s, 0, event))
  {
    OneStage(s.stages);
    match s.stages[0] {
      case Notifying(_, claim) => PutTold(s, Notice(claim));
      case Offering(e) => PutTold(s, Real(e));
      case _ =>
    }
  }

  /** With one publisher, every event the reader gets was preceded by notices that count exactly the
      drops before it. */
  lemma {:induction false} OnePublisherTellsFirst(run: Run)
    requires ValidRun(run) && |Last(run).stages| == 1
    ensures Alone(Last(run)) && Told(Last(run))
  {
    match run {
      case Start(s) =>
      case Then(before, s') =>
        StagesStay(before);
        StagesStay(run);
        OnePublisherTellsFirst(before);
        RunConserves(before);
        AloneNext(Last(before), s');
    }
  }

  lemma AloneNext(s: Lossy, s': Lossy)
    requires Inv(s) && Alone(s) && Told(s) && Next(s, s')
    ensures Alone(s') && Told(s')
  {
    if t, event :| 0 <= t < |s.stages| && s' == Step(s, t, event) {
      assert t == 0;
      AloneStep(s, event);
    } else {
      assert s'.sent == s.sent && s'.totals == s.totals && s'.stages == s.stages && s'.pending == s.pending;
    }
  }

  lemma Extend(run: Run, t: nat, event: nat) returns (next: Run)
    requires ValidRun(run) && t < |Last(run).stages|
    ensures ValidRun(next) && First(next) == First(run) && Last(next) == Step(Last(run), t, event)
  {
    next := Then(run, Step(Last(run), t, event));
    assert Next(Last(run), Last(next));
  }

  /** A publisher that sees nothing pending gets as far as offering its event. */
  lemma ReachOffer(run: Run, t: nat, event: nat) returns (next: Run)
    requires ValidRun(run) && t < |Last(run).stages| && Last(run).stages[t].Idle? && Last(run).pending == 0
    ensures ValidRun(next) && First(next) == First(run)
    ensures Last(next) == Last(run).(stages := Last(run).stages[t := Offering(event)], sends := Last(run).sends + 1)
  {
    next := Extend(run, t, event);
    next := Extend(next, t, 0);
  }

  /** An event offered to a full channel is dropped. */
  lemma DropOffered(run: Run, t: nat, event: nat) returns (next: Run)
    requires ValidRun(run) && t < |Last(run).stages| && Last(run).stages[t] == Offering(event) && !HasRoom(Last(run))
    ensures ValidRun(next) && First(next) == First(run)
    ensures
      var s := Last(run);
      Last(next) == s.(stages := s.stages[t := Idle], pending := s.pending + 1, total := s.total + 1)
  {
    next := Extend(run, t, 0);
    next := CountDrop(next, t);
    assert Last(run).stages[t := Dropping][t := Idle] == Last(run).stages[t := Idle];
  }

  lemma CountDrop(run: Run, t: nat) returns (next: Run)
    requires ValidRun(run) && t < |Last(run).stages| && Last(run).stages[t] == Dropping
    ensures ValidRun(next) && First(next) == First(run)
    ensures
      var s := Last(run);
      Last(next) == s.(stages := s.stages[t := Idle], pending := s.pending + 1, total := s.total + 1)
  {
    next := Extend(run, t, 0);
    next := Extend(next, t, 0);
    assert Last(run).stages[t := Totalling][t := Idle] == Last(run).stages[t := Idle];
  }

  /** The first publisher's events can fill any channel. */
  lemma {:induction false} FillChannel(capacity: nat, publishers: nat, k: nat) returns (run: Run)
    requires k <= capacity && publishers >= 1
    ensures FromFresh(run, capacity, publishers)
    ensures
      var items := seq(k, _ => Real(10));
      Last(run) == Lossy(capacity, items, false, 0, 0, seq(publishers, _ => Idle), items, seq(k, _ => 0), k)
  {
    if k == 0 {
      run := Start(Fresh(capacity, publishers));
    } else {
      var before := FillChannel(capacity, publishers, k - 1);
      run := SendIntoRoom(before, 10);
      assert seq(k - 1, _ => Real(10)) + [Real(10)] == seq(k, _ => Real(10));
      assert seq(k - 1, _ => 0) + [0] == seq(k, _ => 0);
    }
  }

  lemma SendIntoRoom(run: Run, event: nat) returns (next: Run)
    requires ValidRun(run) && |Last(run).stages| > 0 && Last(run).stages[0].Idle? && Last(run).pending == 0
    requires |Last(run).queue| < Last(run).capacity && !Last(run).waiting
    ensures ValidRun(next) && First(next) == First(run)
    ensures Last(next) == Put(Last(run), Real(event)).(sends := Last(run).sends + 1)
  {
    next := ReachOffer(run, 0, event);
    next := Extend(next, 0, 0);
    assert Last(run).stages[0 := Offering(event)][0 := Idle] == Last(run).stages;
  }

  /** A full channel, one publisher about to offer an event, and one drop not told yet. */
  lemma DropWhileOffering(capacity: nat, publishers: nat) returns (run: Run)
    requires publishers >= 2
    ensures FromFresh(run, capacity, publishers)
    ensures
      var s := Last(run);
      && s.capacity == capacity == |s.queue| == |s.sent| == |s.totals| && s.total == 1
      && |s.stages| == publishers && s.stages[0] == Offering(11)
      && forall k :: 0 <= k < |s.sent| ==> s.sent[k].Real?
  {
    run := FillChannel(capacity, publishers, capacity);
    run := ReachOffer(run, 0, 11);
    run := ReachOffer(run, 1, 12);
    run := DropOffered(run, 1, 12);
  }

  /** The reader takes an item, or comes to wait at an unbuffered channel. */
  lemma MakeRoom(run: Run) returns (next: Run)
    requires ValidRun(run) && |Last(run).queue| == Last(run).capacity
    ensures ValidRun(next) && First(next) == First(run) && HasRoom(Last(next))
    ensures Last(next) == Last(run).(queue := Last(next).queue, waiting := Last(next).waiting)
  {
    var s := Last(run);
    var s' := if s.capacity == 0 then s.(waiting := true) else Receive(s);
    next := Then(run, s');
    assert Next(s, s');
  }

  lemma {:induction false} NoNotices(items: seq<Item>, n: nat)
    requires n <= |items| && forall k :: 0 <= k < n ==> items[k].Real?
    ensures Noticed(items, n) == 0
  {
    if n > 0 {
      NoNotices(items, n - 1);
    }
  }

  /** With a second publisher, whatever the capacity, that is not so: one publisher reads a pending count
      of zero, the other drops an event, and the first one's event then goes ahead of any notice. */
  lemma TwoPublishersTellLate(capacity: nat, publishers: nat) returns (run: Run)
    requires publishers >= 2
    ensures FromFresh(run, capacity, publishers) && !Told(Last(run))
  {
    run := DropWhileOffering(capacity, publishers);
    var sent := Last(run).sent;
    run := MakeRoom(run);
    run := Extend(run, 0, 0);
    var t := Last(run);
    assert t.sent == sent + [Real(11)] && t.totals[|sent|] == 1;
    NoNotices(t.sent, |sent|);
    assert t.sent[|sent|].Real? && Noticed(t.sent, |sent|) != t.totals[|sent|];
  }

  lemma {:induction false} StagesStay(run: Run)
    requires ValidRun(run)
    ensures |Last(run).stages| == |First(run).stages|
  {
    match run {
      case Start(_) =>
      case Then(before, _) => StagesStay(before);
    }
  }

  lemma {:induction false} NobodySends(run: Run)
    requires ValidRun(run) && |First(run).stages| == 0
    ensures Last(run).sent == [] && Last(run).totals == []
  {
    match run {
      case Start(_) =>
      case Then(before, _) =>
        NobodySends(before);
        StagesStay(before);
    }
  }

  lemma FewPublishersTellFirst(run: Run, capacity: nat, publishers: nat)
    requires FromFresh(run, capacity, publishers) && publishers <= 1
    ensures Told(Last(run))
  {
    StagesStay(run);
    if publishers == 0 {
      NobodySends(run);
    } else {
      OnePublisherTellsFirst(run);
    }
  }

  /** Exactly when every event is preceded by notices of all drops before it, in every run: when there is
      at most one publisher, whatever the capacity. */
  lemma TellsFirstIffAlone(capacity: nat, publishers: nat)
    ensures (forall run :: FromFresh(run, capacity, publishers) ==> Told(Last(run))) <==> publishers <= 1
  {
    if publishers <= 1 {
      forall run | FromFresh(run, capacity, publishers)
        ensures Told(Last(run))
      {
        FewPublishersTellFirst(run, capacity, publishers);
      }
    } else {
      var run := TwoPublishersTellLate(capacity, publishers);
    }
  }

  // ---------- a lossless subscription ----------

  /** Publishers wait until the channel accepts; the renderer stops after the barrier. `accepted` is
      everything the channel took, in order, and `history` what it had taken when the barrier was
      published. */
  datatype Lossless = Lossless(
    capacity: nat,
    queue: seq<nat>,
    waiting: seq<Waiting>,
    rendered: seq<nat>,
    stopped: bool,
    accepted: seq<nat>,
    barrier: nat,
    barrierPublished: bool,
    history: seq<nat>)

  datatype Waiting = NotWaiting | WaitingToSend(event: nat)

  function Accept(s: Lossless, t: nat): Lossless
    requires t < |s.waiting| && s.waiting[t].WaitingToSend?
  {
    s.(waiting := s.waiting[t := NotWaiting], accepted := s.accepted + [s.waiting[t].event])
  }

  function Render(s: Lossless, event: nat): Lossless {
    s.(rendered := s.rendered + [event], stopped := event == s.barrier)
  }

  /** A publisher calls Publish; the barrier is published once. */
  ghost predicate DoPublish(s: Lossless, s': Lossless, t: nat, event: nat) {
    && t < |s.waiting| && s.waiting[t].NotWaiting? && (event == s.barrier ==> !s.barrierPublished)
    && var waiting := s.waiting[t := WaitingToSend(event)];
       s' == if event == s.barrier then s.(waiting := waiting, barrierPublished := true, history := s.accepted)
             else s.(waiting := waiting)
  }

  /** The channel has room for a waiting publisher's event. */
  ghost predicate DoAccept(s: Lossless, s': Lossless, t: nat) {
    && t < |s.waiting| && s.waiting[t].WaitingToSend? && |s.queue| < s.capacity
    && s' == Accept(s, t).(queue := s.queue + [s.waiting[t].event])
  }

  /** An unbuffered channel hands the event straight to the renderer. */
  ghost predicate DoHandOver(s: Lossless, s': Lossless, t: nat) {
    && t < |s.waiting| && s.waiting[t].WaitingToSend? && s.capacity == 0 && !s.stopped
    && s' == Render(Accept(s, t), s.waiting[t].event)
  }

  ghost predicate DoRender(s: Lossless, s': Lossless) {
    s.queue != [] && !s.stopped && s' == Render(s.(queue := s.queue[1..]), s.queue[0])
  }

  ghost predicate LosslessNext(s: Lossless, s': Lossless) {
    || (exists t, event :: DoPublish(s, s', t, event))
    || (exists t :: DoAccept(s, s', t))
    || (exists t :: DoHandOver(s, s', t))
    || DoRender(s, s')
  }

  function FreshLossless(capacity: nat, publishers: nat, barrier: nat): Lossless {
    Lossless(capacity, [], seq(publishers, _ => NotWaiting), [], false, [], barrier, false, [])
  }

  ghost predicate LosslessInv(s: Lossless) {
    && s.accepted == s.rendered + s.queue
    && s.history <= s.accepted && s.barrier !in s.history
    && (s.stopped ==> s.rendered != [] && s.rendered[|s.rendered| - 1] == s.barrier)
    && (s.capacity == 0 ==> s.queue == [])
    && (!s.barrierPublished ==> s.barrier !in s.accepted && WaitingToSend(s.barrier) !in s.waiting)
  }

  lemma PublishKeeps(s: Lossless, s': Lossless, t: nat, event: nat)
    requires LosslessInv(s) && DoPublish(s, s', t, event)
    ensures LosslessInv(s')
  {
  }

  lemma AcceptKeeps(s: Lossless, s': Lossless, t: nat)
    requires LosslessInv(s) && DoAccept(s, s', t)
    ensures LosslessInv(s')
  {
    assert s.waiting[t] in s.waiting;
  }

  lemma HandOverKeeps(s: Lossless, s': Lossless, t: nat)
    requires LosslessInv(s) && DoHandOver(s, s', t)
    ensures LosslessInv(s')
  {
    assert s.waiting[t] in s.waiting;
  }

  lemma RenderKeeps(s: Lossless, s': Lossless)
    requires LosslessInv(s) && DoRender(s, s')
    ensures LosslessInv(s')
  {
    assert s.queue == [s.queue[0]] + s.queue[1..];
  }

  datatype LosslessRun = StartLossless(first: Lossless) | ThenLossless(run: LosslessRun, state: Lossless)

  function LastLossless(run: LosslessRun): Lossless {
    match run
    case StartLossless(s) => s
    case ThenLossless(_, s) => s
  }

  ghost predicate ValidLosslessRun(run: LosslessRun) {
    match run
    case StartLossless(s) => exists capacity, publishers, barrier :: s == FreshLossless(capacity, publishers, barrier)
    case ThenLossless(before, s) => ValidLosslessRun(before) && LosslessNext(LastLossless(before), s)
  }

  lemma {:induction false} LosslessRunKeeps(run: LosslessRun)
    requires ValidLosslessRun(run)
    ensures LosslessInv(LastLossless(run))
  {
    match run {
      case StartLossless(s) =>
      case ThenLossless(before, s') =>
        LosslessRunKeeps(before);
        var s := LastLossless(before);
        if t, event :| DoPublish(s, s', t, event) {
          PublishKeeps(s, s', t, event);
        } else if t :| DoAccept(s, s', t) {
          AcceptKeeps(s, s', t);
        } else if t :| DoHandOver(s, s', t) {
          HandOverKeeps(s, s', t);
        } else {
          RenderKeeps(s, s');
        }
    }
  }

  lemma PrefixBeforeMark(history: seq<nat>, accepted: seq<nat>, k: nat)
    requires history <= accepted && k < |accepted| && accepted[k] !in history
    ensures history <= accepted[..k]
  {
    assert forall i :: 0 <= i < |history| ==> history[i] == accepted[i];
  }

  /** What was rendered is what was accepted, once each and in order; and when the renderer has seen the
      barrier, everything accepted before the barrier was published has been rendered, ahead of it. */
  lemma BarrierDrains(run: LosslessRun)
    requires ValidLosslessRun(run)
    ensures
      var s := LastLossless(run);
      && s.rendered <= s.accepted
      && (s.stopped ==>
            && s.rendered != []
            && s.history <= s.rendered[..|s.rendered| - 1]
            && s.rendered[|s.rendered| - 1] == s.barrier)
  {
    LosslessRunKeeps(run);
    var s := LastLossless(run);
    if s.stopped {
      var last := |s.rendered| - 1;
      assert s.accepted[last] == s.barrier;
      PrefixBeforeMark(s.history, s.accepted, last);
      assert s.accepted[..last] == s.rendered[..last];
    }
  }

  /** Until the renderer stops, no publisher waits forever on a channel that nothing could move: its event is
      accepted, handed over, or something before it is rendered. */
  lemma LosslessMoves(run: LosslessRun, t: nat)
    requires ValidLosslessRun(run) && !LastLossless(run).stopped
    requires t < |LastLossless(run).waiting| && LastLossless(run).waiting[t].WaitingToSend?
    ensures
      var s := LastLossless(run);
      exists s' :: DoAccept(s, s', t) || DoHandOver(s, s', t) || (DoRender(s, s') && s'.rendered == s.rendered + [s.queue[0]])
  {
    LosslessRunKeeps(run);
    var s := LastLossless(run);
    if |s.queue| < s.capacity {
      assert DoAccept(s, Accept(s, t).(queue := s.queue + [s.waiting[t].event]), t);
    } else if s.capacity == 0 {
      assert DoHandOver(s, Render(Accept(s, t), s.waiting[t].event), t);
    } else {
      assert DoRender(s, Render(s.(queue := s.queue[1..]), s.queue[0]));
    }
  }
}
