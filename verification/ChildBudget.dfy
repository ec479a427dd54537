/**
  The active-runtime budget of a child session: a lease is opened when a run begins, elapsed time is
  charged at checkpoints and at the end, and a lease found open is charged one interval
  (internal/runtime/budget.go:129-186, 274-304, 364-396, 426-486, internal/session/budget.go:109-122).
  Times are in nanoseconds, charges in milliseconds.
*/
module ChildBudget {
  const MS := 1_000_000

  /** How saving a budget ends: saved; failed with the old budget in place; or failed with the new
      budget left behind, because restoring the old one failed too. */
  datatype Saving = Saved | Restored | Stuck

  /** childBudgetRun, once begun. */
  datatype Run = NoRun | Run(startedAt: int, active: bool, accounted: bool, failed: bool)

  /** The persisted budget, the run, the clock, and the true account the budget is judged by: all
      active time, what was lost with crashed runs and not recovered yet (`lost`) or will never be
      (`uncollected`), how far charges were short of or over the elapsed time, how much recoveries
      charged beyond what was lost (`surplus`, negative when they charged less), and what was charged
      because a budget got stuck (`stuck`). */
  datatype Book = Book(
    used: int,
    leaseOpen: bool,
    run: Run,
    now: int,
    truth: int,
    lost: int,
    uncollected: int,
    short: int,
    over: int,
    surplus: int,
    stuck: int,
    phantom: bool,
    charges: nat,
    recoveries: nat,
    crashes: nat)

  datatype Event =
    | Tick(elapsed: nat)
    | Begin(saving: Saving, announced: bool, undone: bool)
    | Checkpoint(saving: Saving)
    | Settle(saving: Saving)
    | Pause(saving: Saving)
    | Crash

  /** AddEffectiveBudgetRuntime: whole milliseconds, and at least one for any time at all. */
  function Charge(elapsed: int): int {
    if elapsed > 0 && elapsed / MS == 0 then 1 else if elapsed > 0 then elapsed / MS else 0
  }

  function Active(b: Book): bool {
    b.run.Run? && b.run.active
  }

  function Elapsed(b: Book): int {
    if Active(b) then b.now - b.run.startedAt else 0
  }

  /** Time passes. */
  function AfterTick(b: Book, elapsed: nat): Book {
    b.(now := b.now + elapsed, truth := if Active(b) then b.truth + elapsed else b.truth)
  }

  /** The budget beginChildBudgetRun saves: an open lease, and the recovery charge for one found open. */
  function Leased(b: Book, interval: nat): Book {
    if !b.leaseOpen then b.(leaseOpen := true)
    else if b.phantom then
      b.(used := b.used + interval, stuck := b.stuck + interval * MS, phantom := false)
    else
      b.(used := b.used + interval, surplus := b.surplus + interval * MS - b.lost, lost := 0, recoveries := b.recoveries + 1)
  }

  /** beginChildBudgetRun. `announced` says that the recovery event was recorded; if not, the previous
      budget is saved again, and `undone` says that it is in place. A phantom lease is one that was left
      open without a run. */
  function AfterBegin(b: Book, interval: nat, saving: Saving, announced: bool, undone: bool): Book {
    if b.run.Run? then b
    else if saving.Restored? then b
    else if saving.Stuck? then Leased(b, interval).(phantom := true)
    else if b.leaseOpen && !announced then
      if undone then b else Leased(b, interval).(phantom := true)
    else Leased(b, interval).(run := Run(b.now, true, false, false), phantom := false)
  }

  /** The budget persistActiveRuntimeLocked saves. */
  function Charged(b: Book, close: bool): Book {
    b.(used := b.used + Charge(Elapsed(b)), leaseOpen := !close)
  }

  /** persistActiveRuntimeLocked for a run that is active. */
  function AfterPersist(b: Book, close: bool, saving: Saving): Book
    requires Active(b)
  {
    var c := Charge(Elapsed(b));
    match saving
    case Restored => b
    case Stuck => Charged(b, close).(stuck := b.stuck + c * MS)
    case Saved =>
      Charged(b, close).(
        run := b.run.(startedAt := b.now, active := !close),
        short := b.short + (if Elapsed(b) > c * MS then Elapsed(b) - c * MS else 0),
        over := b.over + (if c * MS > Elapsed(b) then c * MS - Elapsed(b) else 0),
        charges := b.charges + 1)
  }

  /** checkpointActiveRuntime. */
  function AfterCheckpoint(b: Book, saving: Saving): Book {
    if !b.run.Run? || b.run.accounted || !b.run.active then b
    else
      var after := AfterPersist(b, false, saving);
      if saving.Saved? then after else after.(run := after.run.(failed := true))
  }

  /** settle; pauseActive differs only for a run that is neither active nor accounted, which is never. */
  function AfterSettle(b: Book, saving: Saving): Book {
    if !b.run.Run? || b.run.accounted || !b.run.active then b
    else
      var after := AfterPersist(b, true, saving);
      if saving.Saved? then after.(run := after.run.(accounted := true)) else after
  }

  /** The process dies, or drops a finished run. An open lease is all that remains of an active one. */
  function AfterCrash(b: Book): Book {
    if Active(b) then
      if b.leaseOpen then b.(run := NoRun, lost := b.lost + Elapsed(b), crashes := b.crashes + 1)
      else b.(run := NoRun, uncollected := b.uncollected + Elapsed(b), crashes := b.crashes + 1)
    else b.(run := NoRun)
  }

  function After(b: Book, interval: nat, e: Event): Book {
    match e
    case Tick(elapsed) => AfterTick(b, elapsed)
    case Begin(saving, announced, undone) => AfterBegin(b, interval, saving, announced, undone)
    case Checkpoint(saving) => AfterCheckpoint(b, saving)
    case Settle(saving) => AfterSettle(b, saving)
    case Pause(saving) => AfterSettle(b, saving)
    case Crash => AfterCrash(b)
  }

  /** A budget nothing was charged to yet. */
  function New(now: nat): Book {
    Book(0, false, NoRun, now, 0, 0, 0, 0, 0, 0, 0, false, 0, 0, 0)
  }

  /** What happened to a session, latest event last. */
  datatype History = Nothing | Then(before: History, event: Event)

  function BookOf(start: nat, interval: nat, h: History): Book {
    match h
    case Nothing => New(start)
    case Then(before, e) => After(BookOf(start, interval, before), interval, e)
  }

  // ---------- the account ----------

  /** Every charge is accounted for, exactly. */
  predicate Balanced(b: Book) {
    b.used * MS == b.truth - Elapsed(b) - b.lost - b.uncollected - b.short + b.over + b.surplus + b.stuck
  }

  predicate Sane(b: Book) {
    && b.now >= 0 && b.lost >= 0 && b.uncollected >= 0 && b.short >= 0 && b.over >= 0 && b.stuck >= 0
    && b.used >= 0
    && (b.run.Run? ==> b.run.startedAt <= b.now && (b.run.active <==> !b.run.accounted))
    && (Active(b) ==> b.lost == 0 && !b.phantom)
    && (b.run.Run? && !b.run.active ==> !b.leaseOpen)
    && (b.lost > 0 ==> b.leaseOpen && b.run.NoRun? && !b.phantom)
    && (b.phantom ==> b.leaseOpen && b.lost == 0 && b.run.NoRun?)
  }

  /** There are no more recoveries than crashes. */
  predicate Counted(b: Book) {
    match b.run
    case NoRun => b.recoveries + (if b.leaseOpen && !b.phantom then 1 else 0) <= b.crashes
    case Run(_, _, _, _) => b.recoveries <= b.crashes
  }

  predicate Inv(b: Book) {
    Balanced(b) && Sane(b) && Counted(b)
  }

  /** Rounding costs less than a millisecond a charge, recoveries at most an interval each. */
  predicate Rated(b: Book, interval: nat) {
    && b.short <= b.charges * (MS - 1) && b.over <= b.charges * (MS - 1)
    && b.surplus <= b.recoveries * (interval * MS)
  }

  lemma ChargeIsClose(elapsed: int)
    requires elapsed >= 0
    ensures Charge(elapsed) >= 0 && -MS < Charge(elapsed) * MS - elapsed < MS
    ensures elapsed % MS == 0 ==> Charge(elapsed) * MS == elapsed
  {
  }

  lemma LeasedKeeps(b: Book, interval: nat)
    requires Inv(b) && b.run.NoRun?
    ensures
      var l := Leased(b, interval);
      Balanced(l) && l.lost == 0 && l.leaseOpen && l.run.NoRun? && !l.phantom && l.recoveries <= l.crashes
  {
  }

  lemma BeginKeeps(b: Book, interval: nat, saving: Saving, announced: bool, undone: bool)
    requires Inv(b)
    ensures Inv(AfterBegin(b, interval, saving, announced, undone))
  {
    if b.run.NoRun? {
      LeasedKeeps(b, interval);
    }
  }

  lemma PersistKeeps(b: Book, close: bool, saving: Saving)
    requires Inv(b) && Active(b)
    ensures
      var a := AfterPersist(b, close, saving);
      && Balanced(a) && Counted(a)
      && a.run.Run? && a.run.startedAt <= a.now && a.lost == 0 && !a.phantom
      && a.short >= 0 && a.over >= 0 && a.stuck >= 0 && a.used >= 0
  {
    ChargeIsClose(Elapsed(b));
  }

  lemma CheckpointKeeps(b: Book, saving: Saving)
    requires Inv(b)
    ensures Inv(AfterCheckpoint(b, saving))
  {
    if Active(b) {
      PersistKeeps(b, false, saving);
    }
  }

  lemma SettleKeeps(b: Book, saving: Saving)
    requires Inv(b)
    ensures Inv(AfterSettle(b, saving))
  {
    if Active(b) {
      PersistKeeps(b, true, saving);
    }
  }

  lemma StepKeeps(b: Book, interval: nat, e: Event)
    requires Inv(b)
    ensures Inv(After(b, interval, e))
  {
    match e {
      case Begin(saving, announced, undone) => BeginKeeps(b, interval, saving, announced, undone);
      case Checkpoint(saving) => CheckpointKeeps(b, saving);
      case Settle(saving) => SettleKeeps(b, saving);
      case Pause(saving) => SettleKeeps(b, saving);
      case _ =>
    }
  }

  lemma NewIsSane(start: nat)
    ensures Inv(New(start))
  {
  }

  /** Over every run of events the account balances. */
  lemma {:induction false} AccountBalances(start: nat, interval: nat, h: History)
    ensures Inv(BookOf(start, interval, h))
  {
    match h {
      case Nothing => NewIsSane(start);
      case Then(before, e) =>
        AccountBalances(start, interval, before);
        StepKeeps(BookOf(start, interval, before), interval, e);
    }
  }

  lemma OneMore(n: nat, x: int)
    ensures (n + 1) * x == n * x + x
  {
  }

  lemma RatedStep(b: Book, interval: nat, e: Event)
    requires Inv(b) && Rated(b, interval)
    ensures Rated(After(b, interval, e), interval)
  {
    ChargeIsClose(Elapsed(b));
    OneMore(b.charges, MS - 1);
    OneMore(b.recoveries, interval * MS);
  }

  lemma {:induction false} RatesHold(start: nat, interval: nat, h: History)
    ensures Rated(BookOf(start, interval, h), interval)
  {
    match h {
      case Nothing =>
      case Then(before, e) =>
        RatesHold(start, interval, before);
        AccountBalances(start, interval, before);
        RatedStep(BookOf(start, interval, before), interval, e);
    }
  }

  // ---------- what a run may be asked to do ----------

  /** The step leaves a budget in place that was reported as failed. */
  predicate Sticks(b: Book, e: Event) {
    match e
    case Begin(saving, announced, undone) =>
      b.run.NoRun? && (saving.Stuck? || (saving.Saved? && b.leaseOpen && !announced && !undone))
    case Checkpoint(saving) => Active(b) && saving.Stuck?
    case Settle(saving) => Active(b) && saving.Stuck?
    case Pause(saving) => Active(b) && saving.Stuck?
    case _ => false
  }

  function StuckSaves(start: nat, interval: nat, h: History): nat {
    match h
    case Nothing => 0
    case Then(before, e) => StuckSaves(start, interval, before) + (if Sticks(BookOf(start, interval, before), e) then 1 else 0)
  }

  /** Every event meets the condition in the book it finds. */
  predicate Throughout(start: nat, interval: nat, h: History, meets: (Book, Event) -> bool) {
    match h
    case Nothing => true
    case Then(before, e) => Throughout(start, interval, before, meets) && meets(BookOf(start, interval, before), e)
  }

  /** A run that dies does so at most `d` nanoseconds after its last charge. */
  function DiesWithin(d: nat): (Book, Event) -> bool {
    (b: Book, e: Event) => e.Crash? ==> Elapsed(b) <= d
  }

  predicate Charges(e: Event) {
    e.Checkpoint? || e.Settle? || e.Pause?
  }

  /** Every charge is of whole milliseconds. */
  predicate WholeCharge(b: Book, e: Event) {
    Charges(e) ==> Elapsed(b) % MS == 0
  }

  /** Every charge is of whole milliseconds, or of less than one, which is rounded up. */
  predicate CoveredCharge(b: Book, e: Event) {
    Charges(e) ==> Elapsed(b) % MS == 0 || Elapsed(b) < MS
  }

  /** No charge is rounded up. */
  predicate FrugalCharge(b: Book, e: Event) {
    Charges(e) ==> Elapsed(b) == 0 || Elapsed(b) >= MS
  }

  /** A charge covers the elapsed time exactly when that is whole milliseconds or less than one. */
  lemma ChargeCoversIff(elapsed: int)
    ensures Charge(elapsed) * MS >= elapsed <==> elapsed % MS == 0 || elapsed < MS
    ensures elapsed >= 0 ==> (Charge(elapsed) * MS <= elapsed <==> elapsed == 0 || elapsed >= MS)
  {
  }

  lemma {:induction false} CoveredIsNotShort(start: nat, interval: nat, h: History)
    requires Throughout(start, interval, h, CoveredCharge)
    ensures BookOf(start, interval, h).short == 0
  {
    match h {
      case Nothing =>
      case Then(before, e) =>
        CoveredIsNotShort(start, interval, before);
        ChargeCoversIff(Elapsed(BookOf(start, interval, before)));
    }
  }

  lemma {:induction false} FrugalIsNotOver(start: nat, interval: nat, h: History)
    requires Throughout(start, interval, h, FrugalCharge)
    ensures BookOf(start, interval, h).over == 0
  {
    match h {
      case Nothing =>
      case Then(before, e) =>
        FrugalIsNotOver(start, interval, before);
        AccountBalances(start, interval, before);
        ChargeCoversIff(Elapsed(BookOf(start, interval, before)));
    }
  }

  lemma {:induction false} WholeIsBoth(start: nat, interval: nat, h: History)
    requires Throughout(start, interval, h, WholeCharge)
    ensures Throughout(start, interval, h, CoveredCharge) && Throughout(start, interval, h, FrugalCharge)
  {
    match h {
      case Nothing =>
      case Then(before, e) =>
        WholeIsBoth(start, interval, before);
        AccountBalances(start, interval, before);
    }
  }

  /** Nothing stuck: no lease without a run, and no run without its lease. */
  predicate Unstuck(b: Book) {
    b.stuck == 0 && b.uncollected == 0 && !b.phantom && (Active(b) ==> b.leaseOpen)
  }

  lemma {:induction false} NoStuckSaves(start: nat, interval: nat, h: History)
    requires StuckSaves(start, interval, h) == 0
    ensures Unstuck(BookOf(start, interval, h))
  {
    match h {
      case Nothing =>
      case Then(before, e) =>
        NoStuckSaves(start, interval, before);
        AccountBalances(start, interval, before);
    }
  }

  /** When deaths come within an interval, no recovery charges less than was lost. */
  lemma {:induction false} RecoveriesSuffice(start: nat, interval: nat, h: History, d: nat)
    requires Throughout(start, interval, h, DiesWithin(d)) && d <= interval * MS
    ensures BookOf(start, interval, h).lost <= d && BookOf(start, interval, h).surplus >= 0
    ensures d == 0 ==> BookOf(start, interval, h).uncollected == 0
  {
    match h {
      case Nothing =>
      case Then(before, e) =>
        RecoveriesSuffice(start, interval, before, d);
        AccountBalances(start, interval, before);
    }
  }

  /** Nothing is recovered before a recovery, and nothing lost before a crash. */
  predicate CrashedFirst(b: Book) {
    (b.recoveries == 0 ==> b.surplus == 0) && (b.crashes == 0 ==> b.lost == b.uncollected == 0)
  }

  lemma CrashedFirstStep(b: Book, interval: nat, e: Event)
    requires CrashedFirst(b)
    ensures CrashedFirst(After(b, interval, e))
  {
    match e {
      case Begin(saving, announced, undone) => assert CrashedFirst(Leased(b, interval));
      case _ =>
    }
  }

  lemma {:induction false} CrashesComeFirst(start: nat, interval: nat, h: History)
    ensures CrashedFirst(BookOf(start, interval, h))
  {
    match h {
      case Nothing =>
      case Then(before, e) =>
        CrashesComeFirst(start, interval, before);
        CrashedFirstStep(BookOf(start, interval, before), interval, e);
    }
  }

  // ---------- the charging bound ----------

  lemma Monotone(a: nat, b: nat, x: nat)
    requires a <= b
    ensures a * x <= b * x
  {
  }

  /** No run is active and no lease is open: everything that will be charged has been. */
  predicate Ended(b: Book) {
    !b.leaseOpen && !Active(b)
  }

  /** What a crash may cost too much. */
  function Recovered(b: Book, interval: nat): int {
    b.crashes * (interval * MS)
  }

  lemma SurplusIsRecovered(start: nat, interval: nat, h: History)
    ensures BookOf(start, interval, h).surplus <= Recovered(BookOf(start, interval, h), interval)
  {
    var b := BookOf(start, interval, h);
    AccountBalances(start, interval, h);
    RatesHold(start, interval, h);
    Monotone(b.recoveries, b.crashes, interval * MS);
  }

  /** When no lease is open, the charged time is the true active time, give or take less than a
      millisecond a charge, and at most one interval a crash too much. */
  lemma ChargedWithinBounds(start: nat, interval: nat, h: History)
    requires StuckSaves(start, interval, h) == 0 && Throughout(start, interval, h, DiesWithin(interval * MS))
    requires !BookOf(start, interval, h).leaseOpen
    ensures
      var b := BookOf(start, interval, h);
      b.truth - b.charges * (MS - 1) <= b.used * MS <= b.truth + Recovered(b, interval) + b.charges * (MS - 1)
  {
    AccountBalances(start, interval, h);
    NoStuckSaves(start, interval, h);
    RecoveriesSuffice(start, interval, h, interval * MS);
    RatesHold(start, interval, h);
    SurplusIsRecovered(start, interval, h);
  }

  /** With charges of whole milliseconds: at least the true time, at most one interval a crash more. */
  lemma WholeChargesAreTwoSided(start: nat, interval: nat, h: History)
    requires StuckSaves(start, interval, h) == 0 && Throughout(start, interval, h, DiesWithin(interval * MS))
    requires Throughout(start, interval, h, WholeCharge) && !BookOf(start, interval, h).leaseOpen
    ensures
      var b := BookOf(start, interval, h);
      b.truth <= b.used * MS <= b.truth + Recovered(b, interval)
  {
    WholeIsBoth(start, interval, h);
    NoStuckSaves(start, interval, h);
    CoversTruth(start, interval, h, interval * MS, 0);
    StaysBelow(start, interval, h);
  }

  /** The lower half: nothing stuck and deaths within an interval, or every death right after a charge. */
  lemma CoversTruth(start: nat, interval: nat, h: History, d: nat, n: nat)
    requires Careful(start, interval, d, n, h) && (d == 0 || (n == 0 && d <= interval * MS))
    ensures BookOf(start, interval, h).truth <= BookOf(start, interval, h).used * MS
  {
    AccountBalances(start, interval, h);
    CoveredIsNotShort(start, interval, h);
    RecoveriesSuffice(start, interval, h, d);
    if n == 0 {
      NoStuckSaves(start, interval, h);
    }
  }

  /** The upper half needs nothing stuck, and no bound on when runs die. */
  lemma StaysBelow(start: nat, interval: nat, h: History)
    requires StuckSaves(start, interval, h) == 0 && Throughout(start, interval, h, FrugalCharge)
    ensures BookOf(start, interval, h).used * MS <= BookOf(start, interval, h).truth + Recovered(BookOf(start, interval, h), interval)
  {
    AccountBalances(start, interval, h);
    NoStuckSaves(start, interval, h);
    FrugalIsNotOver(start, interval, h);
    SurplusIsRecovered(start, interval, h);
  }

  /** Without crashes charges telescope: what was charged is all active time up to the last charge and
      what got stuck, whatever other saves failed on the way. It is exact exactly when nothing is stuck. */
  lemma WithoutCrashesExact(start: nat, interval: nat, h: History)
    requires Throughout(start, interval, h, WholeCharge) && BookOf(start, interval, h).crashes == 0
    ensures
      var b := BookOf(start, interval, h);
      b.used * MS == b.truth - Elapsed(b) + b.stuck && b.stuck >= 0
    ensures StuckSaves(start, interval, h) == 0 ==> BookOf(start, interval, h).stuck == 0
  {
    AccountBalances(start, interval, h);
    WholeIsBoth(start, interval, h);
    CoveredIsNotShort(start, interval, h);
    FrugalIsNotOver(start, interval, h);
    CrashesComeFirst(start, interval, h);
    if StuckSaves(start, interval, h) == 0 {
      NoStuckSaves(start, interval, h);
    }
  }

  /** Closing twice adds nothing. */
  lemma ClosingTwice(b: Book, interval: nat, again: Saving)
    requires Inv(b)
    ensures
      var closed := AfterSettle(b, Saved);
      After(closed, interval, Settle(again)) == closed && After(closed, interval, Pause(again)) == closed
      && After(closed, interval, Checkpoint(again)) == closed
  {
  }

  // ---------- exactly when the bounds hold ----------

  /** At most `n` saves stuck, every death within `d`, no charge rounded down, and everything ended. */
  predicate Careful(start: nat, interval: nat, d: nat, n: nat, h: History) {
    && StuckSaves(start, interval, h) <= n && Throughout(start, interval, h, DiesWithin(d))
    && Throughout(start, interval, h, CoveredCharge) && Ended(BookOf(start, interval, h))
  }

  /** Every careful run is charged at least its true time exactly when every death comes right after a
      charge, or when nothing gets stuck and deaths come within an interval. */
  lemma NeverTooLittleIff(start: nat, interval: nat, d: nat, n: nat)
    ensures (forall h :: Careful(start, interval, d, n, h) ==> BookOf(start, interval, h).truth <= BookOf(start, interval, h).used * MS)
            <==> (d == 0 || (n == 0 && d <= interval * MS))
  {
    if d == 0 || (n == 0 && d <= interval * MS) {
      forall h | Careful(start, interval, d, n, h)
        ensures BookOf(start, interval, h).truth <= BookOf(start, interval, h).used * MS
      {
        CoversTruth(start, interval, h, d, n);
      }
    } else if d > interval * MS {
      var h := LateCrashChargesTooLittle(start, interval, d);
    } else {
      var h := StuckCloseLosesTime(start, interval, 0, d);
    }
  }

  /** At most `n` saves stuck, and no charge rounded up. */
  predicate Thrifty(start: nat, interval: nat, n: nat, h: History) {
    StuckSaves(start, interval, h) <= n && Throughout(start, interval, h, FrugalCharge)
  }

  /** Every thrifty run is charged at most its true time and an interval a crash, however late it dies,
      exactly when nothing gets stuck. */
  lemma NeverTooMuchIff(start: nat, interval: nat, n: nat)
    ensures (forall h :: Thrifty(start, interval, n, h) ==>
               BookOf(start, interval, h).used * MS <= BookOf(start, interval, h).truth + Recovered(BookOf(start, interval, h), interval))
            <==> n == 0
  {
    if n == 0 {
      forall h | Thrifty(start, interval, n, h)
        ensures BookOf(start, interval, h).used * MS <= BookOf(start, interval, h).truth + Recovered(BookOf(start, interval, h), interval)
      {
        StaysBelow(start, interval, h);
      }
    } else {
      var h := StuckChargesTwice(start, interval, 1);
    }
  }

  /** At most `n` saves stuck, charges of whole milliseconds, and no crash. */
  predicate Calm(start: nat, interval: nat, n: nat, h: History) {
    && StuckSaves(start, interval, h) <= n && Throughout(start, interval, h, WholeCharge)
    && BookOf(start, interval, h).crashes == 0
  }

  /** Every calm run is charged exactly its active time up to the last charge exactly when nothing gets stuck. */
  lemma ExactIff(start: nat, interval: nat, n: nat)
    ensures (forall h :: Calm(start, interval, n, h) ==>
               BookOf(start, interval, h).used * MS == BookOf(start, interval, h).truth - Elapsed(BookOf(start, interval, h)))
            <==> n == 0
  {
    if n == 0 {
      forall h | Calm(start, interval, n, h)
        ensures BookOf(start, interval, h).used * MS == BookOf(start, interval, h).truth - Elapsed(BookOf(start, interval, h))
      {
        WithoutCrashesExact(start, interval, h);
      }
    } else {
      var h := StuckChargesTwice(start, interval, 1);
    }
  }

  // ---------- the failing families ----------

  const BEGIN := Begin(Saved, true, true)

  /** Whole charges, every death within `d`, and `n` saves that stuck. */
  predicate Tame(start: nat, interval: nat, d: nat, n: nat, h: History) {
    && StuckSaves(start, interval, h) == n && Throughout(start, interval, h, DiesWithin(d))
    && Throughout(start, interval, h, WholeCharge)
  }

  lemma TameStep(start: nat, interval: nat, d: nat, n: nat, h: History, e: Event)
    requires Tame(start, interval, d, n, h)
    requires WholeCharge(BookOf(start, interval, h), e) && (e.Crash? ==> Elapsed(BookOf(start, interval, h)) <= d)
    ensures Tame(start, interval, d, if Sticks(BookOf(start, interval, h), e) then n + 1 else n, Then(h, e))
    ensures BookOf(start, interval, Then(h, e)) == After(BookOf(start, interval, h), interval, e)
  {
  }

  /** A run at work for `t` nanoseconds, not charged yet. */
  function Working(t: nat): History {
    Then(Then(Nothing, BEGIN), Tick(t))
  }

  lemma WorkingBook(start: nat, interval: nat, d: nat, t: nat)
    ensures Tame(start, interval, d, 0, Working(t))
    ensures BookOf(start, interval, Working(t)) ==
              New(start).(leaseOpen := true, run := Run(start, true, false, false), now := start + t, truth := t)
  {
    TameStep(start, interval, d, 0, Nothing, BEGIN);
    TameStep(start, interval, d, 0, Then(Nothing, BEGIN), Tick(t));
  }

  lemma WholeChargeIs(ms: nat)
    ensures Charge(ms * MS) == ms && (ms * MS) % MS == 0
  {
  }

  /** Whatever the interval and the time: a closing save that gets stuck and is made again charges it twice. */
  lemma StuckChargesTwice(start: nat, interval: nat, ms: nat) returns (h: History)
    requires ms > 0
    ensures Thrifty(start, interval, 1, h) && Calm(start, interval, 1, h)
    ensures
      var b := BookOf(start, interval, h);
      Ended(b) && b.crashes == 0 && b.truth == ms * MS && b.used == 2 * ms
  {
    var work := Working(ms * MS);
    WorkingBook(start, interval, 0, ms * MS);
    WholeChargeIs(ms);
    TameStep(start, interval, 0, 0, work, Settle(Stuck));
    TameStep(start, interval, 0, 1, Then(work, Settle(Stuck)), Settle(Saved));
    h := Then(Then(work, Settle(Stuck)), Settle(Saved));
    WholeIsBoth(start, interval, h);
  }

  /** Whatever the interval and the delay: a run that dies later than an interval after its last charge
      is charged the interval alone. */
  lemma LateCrashChargesTooLittle(start: nat, interval: nat, d: nat) returns (h: History)
    requires d > interval * MS
    ensures Careful(start, interval, d, 0, h)
    ensures
      var b := BookOf(start, interval, h);
      b.truth == d && b.used == interval
  {
    WorkingBook(start, interval, d, d);
    TameStep(start, interval, d, 0, Working(d), Crash);
    h := Recover(start, interval, d, 0, Then(Working(d), Crash));
  }

  /** After a crash a new run begins and ends at once, which recovers what an open lease allows. */
  lemma Recover(start: nat, interval: nat, d: nat, n: nat, h: History) returns (next: History)
    requires Tame(start, interval, d, n, h) && BookOf(start, interval, h).run.NoRun? && !BookOf(start, interval, h).phantom
    ensures Careful(start, interval, d, n, next)
    ensures
      var b, c := BookOf(start, interval, h), BookOf(start, interval, next);
      c.truth == b.truth && c.used == b.used + (if b.leaseOpen then interval else 0)
  {
    TameStep(start, interval, d, n, h, BEGIN);
    TameStep(start, interval, d, n, Then(h, BEGIN), Settle(Saved));
    next := Then(Then(h, BEGIN), Settle(Saved));
    WholeIsBoth(start, interval, next);
  }

  /** Whatever the interval: after a closing save that got stuck the lease is closed, and what a run does
      from then on until it dies is never charged, by no later recovery either. */
  lemma StuckCloseLosesTime(start: nat, interval: nat, ms: nat, more: nat) returns (h: History)
    ensures Careful(start, interval, ms * MS + more, 1, h)
    ensures
      var b := BookOf(start, interval, h);
      b.truth == ms * MS + more && b.used == ms
  {
    var d := ms * MS + more;
    var stuck := Then(Working(ms * MS), Settle(Stuck));
    WorkingBook(start, interval, d, ms * MS);
    WholeChargeIs(ms);
    TameStep(start, interval, d, 0, Working(ms * MS), Settle(Stuck));
    TameStep(start, interval, d, 1, stuck, Tick(more));
    TameStep(start, interval, d, 1, Then(stuck, Tick(more)), Crash);
    h := Recover(start, interval, d, 1, Then(Then(stuck, Tick(more)), Crash));
  }

  /** A run that is charged once, at its end: the fraction of a millisecond beyond the first is dropped, so
      it is charged its true time exactly when there is none. */
  lemma TruncationChargesTooLittle(start: nat, interval: nat, t: nat)
    ensures
      var b := BookOf(start, interval, Then(Working(t), Settle(Saved)));
      Ended(b) && b.crashes == 0 && b.truth == t && (b.truth <= b.used * MS <==> t % MS == 0 || t < MS)
  {
    ChargeCoversIff(t);
    WorkingBook(start, interval, 0, t);
  }

  // ---------- the run object ----------

  /** childBudgetRun beside the persisted budget it works on. */
  class BudgetRun {
    const interval: nat
    var used: int
    var leaseOpen: bool
    var begun: bool
    var activeStartedAt: int
    var active: bool
    var accounted: bool
    var checkpointFailed: bool
    var now: int
    ghost var book: Book

    /** A session with nothing charged yet. */
    constructor (start: nat, interval: nat)
      ensures Valid() && book == New(start) && this.interval == interval
    {
      NewIsSane(start);
      this.interval := interval;
      used, leaseOpen, begun, activeStartedAt, active, accounted, checkpointFailed, now := 0, false, false, 0, false, false, false, start;
      book := New(start);
    }

    ghost predicate Valid()
      reads this
    {
      && book.used == used && book.leaseOpen == leaseOpen && book.now == now
      && book.run == (if begun then Run(activeStartedAt, active, accounted, checkpointFailed) else NoRun)
      && Inv(book)
    }

    method Wait(elapsed: nat)
      requires Valid()
      modifies this
      ensures Valid() && book == AfterTick(old(book), elapsed)
    {
      StepKeeps(book, interval, Tick(elapsed));
      book := AfterTick(book, elapsed);
      now := now + elapsed;
    }

    /** beginChildBudgetRun. */
    method BeginRun(saving: Saving, announced: bool, undone: bool) returns (started: bool)
      requires Valid() && !begun
      modifies this
      ensures Valid() && book == AfterBegin(old(book), interval, saving, announced, undone) && started == begun
    {
      StepKeeps(book, interval, Begin(saving, announced, undone));
      book := AfterBegin(book, interval, saving, announced, undone);
      var previousUsed, recovering := used, leaseOpen;
      if saving.Restored? {
        return false;
      }
      if recovering {
        used := used + interval;
      }
      leaseOpen := true;
      if saving.Stuck? {
        return false;
      }
      if recovering && !announced {
        if undone {
          used := previousUsed;
        }
        return false;
      }
      begun, activeStartedAt, active, accounted, checkpointFailed := true, now, true, false, false;
      started := true;
    }

    /** persistActiveRuntimeLocked. */
    method Persist(close: bool, saving: Saving) returns (ok: bool)
      requires Valid() && begun && active
      modifies this`used, this`leaseOpen, this`activeStartedAt, this`active
      ensures ok == saving.Saved?
      ensures
        var b := AfterPersist(book, close, saving);
        used == b.used && leaseOpen == b.leaseOpen && b.run == Run(activeStartedAt, active, accounted, checkpointFailed)
    {
      ok := saving.Saved?;
      if saving.Restored? {
        return;
      }
      used := used + Charge(now - activeStartedAt);
      leaseOpen := !close;
      if saving.Saved? {
        activeStartedAt := now;
        if close {
          active := false;
        }
      }
    }

    /** checkpointActiveRuntime. */
    method CheckpointActiveRuntime(saving: Saving) returns (ok: bool)
      requires Valid()
      modifies this
      ensures Valid() && book == AfterCheckpoint(old(book), saving)
    {
      if !begun || accounted || !active {
        return true;
      }
      StepKeeps(book, interval, Checkpoint(saving));
      ok := Persist(false, saving);
      if !ok {
        checkpointFailed := true;
      }
      book := AfterCheckpoint(book, saving);
    }

    /** settle and pauseActive. */
    method SettleRun(saving: Saving) returns (ok: bool)
      requires Valid()
      modifies this
      ensures Valid() && book == AfterSettle(old(book), saving)
    {
      if !begun || accounted || !active {
        return true;
      }
      StepKeeps(book, interval, Settle(saving));
      ok := Persist(true, saving);
      if ok {
        accounted := true;
      }
      book := AfterSettle(book, saving);
    }
  }
}
