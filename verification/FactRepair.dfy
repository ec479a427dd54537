/**
  Repairing the four fact logs from a receipt's payload: messages and events are re-read before
  every fact, the plan and goal histories are read once
  (internal/runtime/approval_receipts.go:881-1011).
*/
module FactRepair {
  /** A durable row; `body` stands for everything the encoded rows are compared on. */
  datatype Fact = Fact(id: string, body: string)

  datatype Log = Messages | Events | PlanHistory | GoalHistory

  datatype Logs = Logs(messages: seq<Fact>, events: seq<Fact>, plan: seq<Fact>, goal: seq<Fact>)

  /** A fact and the log it belongs to. */
  datatype Entry = Entry(log: Log, fact: Fact)

  function Rows(logs: Logs, log: Log): seq<Fact> {
    match log
    case Messages => logs.messages
    case Events => logs.events
    case PlanHistory => logs.plan
    case GoalHistory => logs.goal
  }

  function Append(logs: Logs, e: Entry): Logs {
    match e.log
    case Messages => logs.(messages := logs.messages + [e.fact])
    case Events => logs.(events := logs.events + [e.fact])
    case PlanHistory => logs.(plan := logs.plan + [e.fact])
    case GoalHistory => logs.(goal := logs.goal + [e.fact])
  }

  datatype Scan = Absent | Same | Differs

  /** The first row with the fact's identity decides. */
  function ScanRows(rows: seq<Fact>, fact: Fact): Scan {
    if rows == [] then Absent
    else if rows[0].id == fact.id then (if rows[0] == fact then Same else Differs)
    else ScanRows(rows[1..], fact)
  }

  datatype Repair = Repaired(logs: Logs) | Refused(logs: Logs)

  /** Entries repaired one after the other, each against the logs as they are by then. */
  function Restore(logs: Logs, entries: seq<Entry>): Repair
    decreases |entries|
  {
    if entries == [] then Repaired(logs)
    else match ScanRows(Rows(logs, entries[0].log), entries[0].fact)
      case Absent => Restore(Append(logs, entries[0]), entries[1..])
      case Same => Restore(logs, entries[1..])
      case Differs => Refused(logs)
  }

  predicate SameIdentity(a: Entry, b: Entry) {
    a.log == b.log && a.fact.id == b.fact.id
  }

  predicate Distinct(entries: seq<Entry>) {
    forall i, j :: 0 <= i < j < |entries| ==> !SameIdentity(entries[i], entries[j])
  }

  // ---------- what one scan knows ----------

  lemma {:induction false} ScanMeaning(rows: seq<Fact>, fact: Fact)
    ensures ScanRows(rows, fact).Absent? <==> forall i :: 0 <= i < |rows| ==> rows[i].id != fact.id
    ensures ScanRows(rows, fact).Same? ==> fact in rows
  {
    if rows == [] {
    } else {
      ScanMeaning(rows[1..], fact);
      assert rows == [rows[0]] + rows[1..];
    }
  }

  lemma {:induction false} ScanAppend(rows: seq<Fact>, added: Fact, fact: Fact)
    ensures ScanRows(rows + [added], fact) ==
            if ScanRows(rows, fact).Absent? then ScanRows([added], fact) else ScanRows(rows, fact)
  {
    if rows == [] {
      assert rows + [added] == [added];
    } else {
      assert (rows + [added])[1..] == rows[1..] + [added];
      ScanAppend(rows[1..], added, fact);
    }
  }

  /** Appending one entry changes the scan of that very identity only. */
  lemma ScanAfterAppend(logs: Logs, added: Entry, e: Entry)
    ensures !SameIdentity(added, e) ==> ScanRows(Rows(Append(logs, added), e.log), e.fact) == ScanRows(Rows(logs, e.log), e.fact)
    ensures added == e && ScanRows(Rows(logs, e.log), e.fact).Absent? ==>
              ScanRows(Rows(Append(logs, added), e.log), e.fact).Same?
  {
    if added.log == e.log {
      ScanAppend(Rows(logs, e.log), added.fact, e.fact);
    }
  }

  // ---------- the repaired logs ----------

  /** The entries whose identity has no row yet. */
  function Missing(logs: Logs, entries: seq<Entry>): seq<Entry> {
    if entries == [] then []
    else (if ScanRows(Rows(logs, entries[0].log), entries[0].fact).Absent? then [entries[0]] else []) + Missing(logs, entries[1..])
  }

  function AppendAll(logs: Logs, entries: seq<Entry>): Logs
    decreases |entries|
  {
    if entries == [] then logs else AppendAll(Append(logs, entries[0]), entries[1..])
  }

  predicate Contradicted(logs: Logs, e: Entry) {
    ScanRows(Rows(logs, e.log), e.fact).Differs?
  }

  lemma {:induction false} MissingAfterAppend(logs: Logs, added: Entry, entries: seq<Entry>)
    requires forall i :: 0 <= i < |entries| ==> !SameIdentity(added, entries[i])
    ensures Missing(Append(logs, added), entries) == Missing(logs, entries)
    ensures forall i :: 0 <= i < |entries| ==> Contradicted(Append(logs, added), entries[i]) == Contradicted(logs, entries[i])
  {
    if entries == [] {
    } else {
      ScanAfterAppend(logs, added, entries[0]);
      MissingAfterAppend(logs, added, entries[1..]);
      forall i | 0 <= i < |entries|
        ensures Contradicted(Append(logs, added), entries[i]) == Contradicted(logs, entries[i])
      {
        assert i > 0 ==> entries[i] == entries[1..][i - 1];
      }
    }
  }

  /** A repair is refused exactly when some row contradicts a fact of the payload; otherwise it
      appends precisely the facts that had no row, in payload order. */
  lemma {:induction false} RestoreMeaning(logs: Logs, entries: seq<Entry>)
    requires Distinct(entries)
    ensures Restore(logs, entries).Refused? <==> exists i :: 0 <= i < |entries| && Contradicted(logs, entries[i])
    ensures Restore(logs, entries).Repaired? ==> Restore(logs, entries).logs == AppendAll(logs, Missing(logs, entries))
    decreases |entries|
  {
    if entries == [] {
    } else {
      var e, rest := entries[0], entries[1..];
      assert forall i :: 0 < i < |entries| ==> entries[i] == rest[i - 1];
      match ScanRows(Rows(logs, e.log), e.fact) {
        case Absent =>
          MissingAfterAppend(logs, e, rest);
          RestoreMeaning(Append(logs, e), rest);
          assert Missing(logs, entries) == [e] + Missing(logs, rest);
        case Same =>
          RestoreMeaning(logs, rest);
          assert Missing(logs, entries) == Missing(logs, rest);
        case Differs =>
          assert Contradicted(logs, entries[0]);
      }
    }
  }

  predicate Extends(logs: Logs, later: Logs) {
    && logs.messages <= later.messages && logs.events <= later.events
    && logs.plan <= later.plan && logs.goal <= later.goal
  }

  /** Existing rows are an untouched prefix of every log, whether the repair completes or is refused. */
  lemma {:induction false} RestoreExtends(logs: Logs, entries: seq<Entry>)
    ensures Extends(logs, Restore(logs, entries).logs)
    decreases |entries|
  {
    if entries == [] {
    } else {
      match ScanRows(Rows(logs, entries[0].log), entries[0].fact) {
        case Absent => RestoreExtends(Append(logs, entries[0]), entries[1..]);
        case Same => RestoreExtends(logs, entries[1..]);
        case Differs =>
      }
    }
  }

  /** What a scan found stays found while other entries are repaired. */
  lemma {:induction false} FoundStays(logs: Logs, entries: seq<Entry>, e: Entry)
    requires !ScanRows(Rows(logs, e.log), e.fact).Absent?
    ensures ScanRows(Rows(Restore(logs, entries).logs, e.log), e.fact) == ScanRows(Rows(logs, e.log), e.fact)
    decreases |entries|
  {
    if entries == [] {
    } else {
      match ScanRows(Rows(logs, entries[0].log), entries[0].fact) {
        case Absent =>
          if entries[0].log == e.log {
            ScanAppend(Rows(logs, e.log), entries[0].fact, e.fact);
          }
          FoundStays(Append(logs, entries[0]), entries[1..], e);
        case Same => FoundStays(logs, entries[1..], e);
        case Differs =>
      }
    }
  }

  /** Every fact of a completed repair is in its log. */
  lemma {:induction false} RestoreFindsAll(logs: Logs, entries: seq<Entry>, i: nat)
    requires i < |entries| && Restore(logs, entries).Repaired?
    ensures ScanRows(Rows(Restore(logs, entries).logs, entries[i].log), entries[i].fact).Same?
    decreases |entries|
  {
    var e := entries[0];
    var next := if ScanRows(Rows(logs, e.log), e.fact).Absent? then Append(logs, e) else logs;
    if i == 0 {
      ScanAfterAppend(logs, e, e);
      FoundStays(next, entries[1..], e);
    } else {
      RestoreFindsAll(next, entries[1..], i - 1);
    }
  }

  /** How many rows carry an identity. */
  function Count(rows: seq<Fact>, id: string): nat {
    if rows == [] then 0 else (if rows[0].id == id then 1 else 0) + Count(rows[1..], id)
  }

  lemma {:induction false} CountAppend(rows: seq<Fact>, added: Fact, id: string)
    ensures Count(rows + [added], id) == Count(rows, id) + if added.id == id then 1 else 0
  {
    if rows == [] {
      assert rows + [added] == [added];
    } else {
      assert (rows + [added])[1..] == rows[1..] + [added];
      CountAppend(rows[1..], added, id);
    }
  }

  lemma {:induction false} AbsentCountsZero(rows: seq<Fact>, fact: Fact)
    ensures ScanRows(rows, fact).Absent? <==> Count(rows, fact.id) == 0
  {
    if rows == [] {
    } else {
      AbsentCountsZero(rows[1..], fact);
    }
  }

  /** No repair ever duplicates an identity: a log with at most one row for it keeps at most one. */
  lemma {:induction false} RestoreNeverDuplicates(logs: Logs, entries: seq<Entry>, log: Log, id: string)
    requires Count(Rows(logs, log), id) <= 1
    ensures Count(Rows(Restore(logs, entries).logs, log), id) <= 1
    decreases |entries|
  {
    if entries == [] {
    } else {
      var e := entries[0];
      AbsentCountsZero(Rows(logs, e.log), e.fact);
      match ScanRows(Rows(logs, e.log), e.fact) {
        case Absent =>
          if e.log == log {
            CountAppend(Rows(logs, log), e.fact, id);
          }
          RestoreNeverDuplicates(Append(logs, e), entries[1..], log, id);
        case Same => RestoreNeverDuplicates(logs, entries[1..], log, id);
        case Differs =>
      }
    }
  }

  // ---------- crash and restart ----------

  lemma {:induction false} RestoreSplits(logs: Logs, entries: seq<Entry>, n: nat)
    requires n <= |entries|
    ensures Restore(logs, entries[..n]).Refused? ==> Restore(logs, entries) == Restore(logs, entries[..n])
    ensures Restore(logs, entries[..n]).Repaired? ==>
              Restore(logs, entries) == Restore(Restore(logs, entries[..n]).logs, entries[n..])
    decreases n
  {
    if n == 0 {
      assert entries[..0] == [] && entries[0..] == entries;
    } else {
      assert entries[..n][1..] == entries[1..][..n - 1] && entries[1..][n - 1..] == entries[n..];
      var e := entries[0];
      var next := if ScanRows(Rows(logs, e.log), e.fact).Absent? then Append(logs, e) else logs;
      if !ScanRows(Rows(logs, e.log), e.fact).Differs? {
        RestoreSplits(next, entries[1..], n - 1);
      }
    }
  }

  /** Entries that are all in place already are repaired without a change. */
  lemma {:induction false} RestoreKeepsFound(logs: Logs, entries: seq<Entry>)
    requires forall i :: 0 <= i < |entries| ==> ScanRows(Rows(logs, entries[i].log), entries[i].fact).Same?
    ensures Restore(logs, entries) == Repaired(logs)
    decreases |entries|
  {
    if entries == [] {
    } else {
      RestoreKeepsFound(logs, entries[1..]);
    }
  }

  /** Dying after any number of repaired entries and starting over ends exactly where one
      uninterrupted repair ends. */
  lemma CrashThenRestore(logs: Logs, entries: seq<Entry>, n: nat)
    requires n <= |entries| && Restore(logs, entries[..n]).Repaired?
    ensures Restore(Restore(logs, entries[..n]).logs, entries) == Restore(logs, entries)
  {
    var reached := Restore(logs, entries[..n]).logs;
    forall i | 0 <= i < n
      ensures ScanRows(Rows(reached, entries[..n][i].log), entries[..n][i].fact).Same?
    {
      RestoreFindsAll(logs, entries[..n], i);
    }
    RestoreKeepsFound(reached, entries[..n]);
    RestoreSplits(reached, entries, n);
    RestoreSplits(logs, entries, n);
  }

  /** Repairing twice is repairing once. */
  lemma RestoreIdempotent(logs: Logs, entries: seq<Entry>)
    requires Restore(logs, entries).Repaired?
    ensures Restore(Restore(logs, entries).logs, entries) == Restore(logs, entries)
  {
    assert entries[..|entries|] == entries;
    CrashThenRestore(logs, entries, |entries|);
  }

  // ---------- the store's own procedure ----------

  function Tagged(log: Log, facts: seq<Fact>): (r: seq<Entry>)
    ensures |r| == |facts| && forall i :: 0 <= i < |r| ==> r[i] == Entry(log, facts[i])
  {
    seq(|facts|, i requires 0 <= i < |facts| => Entry(log, facts[i]))
  }

  predicate DistinctFacts(facts: seq<Fact>) {
    forall i, j :: 0 <= i < j < |facts| ==> facts[i].id != facts[j].id
  }

  datatype Ending = Completed | Refusal | Died

  /** The session's logs as the repair sees them. */
  class LogStore {
    var logs: Logs

    constructor (initial: Logs)
      ensures logs == initial
    {
      logs := initial;
    }

    method Scan(rows: seq<Fact>, fact: Fact) returns (found: Scan)
      ensures found == ScanRows(rows, fact)
    {
      var i := 0;
      while i < |rows|
        invariant 0 <= i <= |rows|
        invariant ScanRows(rows, fact) == ScanRows(rows[i..], fact)
      {
        if rows[i].id == fact.id {
          return if rows[i] == fact then Same else Differs;
        }
        i := i + 1;
      }
      return Absent;
    }

    /** Messages and events: the log is read again before every fact. The process dies once `life`
        facts are handled. */
    method RestoreReloading(log: Log, facts: seq<Fact>, life: nat) returns (ending: Ending, left: nat)
      modifies this
      ensures Came(old(logs), logs, Tagged(log, facts), life, ending, left)
    {
      left := life;
      var i := 0;
      ghost var entries := Tagged(log, facts);
      while i < |facts|
        invariant 0 <= i <= |facts| && left + i == life
        invariant Restore(old(logs), entries[..i]) == Repaired(logs)
      {
        if left == 0 {
          return Died, 0;
        }
        var found := Scan(Rows(logs, log), facts[i]);
        RestoreSplits(old(logs), entries[..i + 1], i);
        RestoreSplits(old(logs), entries, i + 1);
        assert entries[..i + 1][..i] == entries[..i] && entries[..i + 1][i..] == [entries[i]];
        match found {
          case Differs => return Refusal, left;
          case Absent => logs := Append(logs, Entry(log, facts[i]));
          case Same =>
        }
        i, left := i + 1, left - 1;
      }
      assert entries[..|facts|] == entries;
      return Completed, left;
    }

    /** Plan and goal histories: the log is read once. With distinct identities that is the same repair. */
    method RestoreFromSnapshot(log: Log, facts: seq<Fact>, life: nat) returns (ending: Ending, left: nat)
      requires DistinctFacts(facts)
      modifies this
      ensures Came(old(logs), logs, Tagged(log, facts), life, ending, left)
    {
      left := life;
      var rows := Rows(logs, log);
      var i := 0;
      ghost var entries := Tagged(log, facts);
      while i < |facts|
        invariant 0 <= i <= |facts| && left + i == life
        invariant Restore(old(logs), entries[..i]) == Repaired(logs)
        invariant forall k :: i <= k < |facts| ==> ScanRows(Rows(logs, log), facts[k]) == ScanRows(rows, facts[k])
      {
        if left == 0 {
          return Died, 0;
        }
        var found := Scan(rows, facts[i]);
        RestoreSplits(old(logs), entries[..i + 1], i);
        RestoreSplits(old(logs), entries, i + 1);
        assert entries[..i + 1][..i] == entries[..i] && entries[..i + 1][i..] == [entries[i]];
        match found {
          case Differs => return Refusal, left;
          case Absent =>
            forall k | i < k < |facts|
              ensures ScanRows(Rows(Append(logs, entries[i]), log), facts[k]) == ScanRows(rows, facts[k])
            {
              ScanAfterAppend(logs, entries[i], entries[k]);
            }
            logs := Append(logs, Entry(log, facts[i]));
          case Same =>
        }
        i, left := i + 1, left - 1;
      }
      assert entries[..|facts|] == entries;
      return Completed, left;
    }

    /** restoreApprovalOperationFacts: messages, events, plan history, goal history, in that order.
        Wherever it dies, it has repaired a prefix of the payload. */
    method RestoreAll(messages: seq<Fact>, events: seq<Fact>, plan: seq<Fact>, goal: seq<Fact>, life: nat) returns (ending: Ending)
      requires DistinctFacts(plan) && DistinctFacts(goal)
      modifies this
      ensures exists left: nat :: Came(old(logs), logs, Payload(messages, events, plan, goal), life, ending, left)
    {
      ghost var start, done := logs, Tagged(Messages, messages);
      ghost var all := Payload(messages, events, plan, goal);
      var left, after: nat;
      ending, left := RestoreReloading(Messages, messages, life);
      if !ending.Completed? {
        Stops(start, logs, done, Tagged(Events, events) + Tagged(PlanHistory, plan) + Tagged(GoalHistory, goal), all, life, ending, left);
        return;
      }
      ghost var mid := logs;
      ending, after := RestoreReloading(Events, events, left);
      Sequel(start, mid, logs, done, Tagged(Events, events), life, left, ending, after);
      done, mid, left := done + Tagged(Events, events), logs, after;
      if !ending.Completed? {
        Stops(start, logs, done, Tagged(PlanHistory, plan) + Tagged(GoalHistory, goal), all, life, ending, left);
        return;
      }
      ending, after := RestoreFromSnapshot(PlanHistory, plan, left);
      Sequel(start, mid, logs, done, Tagged(PlanHistory, plan), life, left, ending, after);
      done, mid, left := done + Tagged(PlanHistory, plan), logs, after;
      if !ending.Completed? {
        Stops(start, logs, done, Tagged(GoalHistory, goal), all, life, ending, left);
        return;
      }
      if |goal| > 0 {
        ending, after := RestoreFromSnapshot(GoalHistory, goal, left);
        Sequel(start, mid, logs, done, Tagged(GoalHistory, goal), life, left, ending, after);
      } else {
        assert all == done;
      }
    }
  }

  /** What a repair of `entries` with `life` steps to live came to. */
  ghost predicate Came(start: Logs, now: Logs, entries: seq<Entry>, life: nat, ending: Ending, left: nat) {
    match ending
    case Completed => Restore(start, entries) == Repaired(now) && left + |entries| == life
    case Refusal => Restore(start, entries) == Refused(now)
    case Died => life < |entries| && Restore(start, entries[..life]) == Repaired(now)
  }

  function Payload(messages: seq<Fact>, events: seq<Fact>, plan: seq<Fact>, goal: seq<Fact>): seq<Entry> {
    Tagged(Messages, messages) + Tagged(Events, events) + Tagged(PlanHistory, plan) + Tagged(GoalHistory, goal)
  }

  /** A repair that completed goes on with `more`, and may be refused or die inside it. */
  lemma Sequel(start: Logs, mid: Logs, now: Logs, done: seq<Entry>, more: seq<Entry>, life: nat, left: nat, ending: Ending, after: nat)
    requires Came(start, mid, done, life, Completed, left) && Came(mid, now, more, left, ending, after)
    ensures Came(start, now, done + more, life, ending, after)
  {
    var all := done + more;
    assert all[..|done|] == done && all[|done|..] == more;
    RestoreSplits(start, all, |done|);
    if ending.Died? {
      var cut := all[..life];
      assert cut[..|done|] == done && cut[|done|..] == more[..left];
      RestoreSplits(start, cut, |done|);
    }
  }

  /** A repair that stopped inside `done` stopped inside anything longer. */
  lemma Stops(start: Logs, now: Logs, done: seq<Entry>, rest: seq<Entry>, all: seq<Entry>, life: nat, ending: Ending, left: nat)
    requires Came(start, now, done, life, ending, left) && !ending.Completed? && all == done + rest
    ensures Came(start, now, all, life, ending, left)
  {
    assert all[..|done|] == done;
    RestoreSplits(start, all, |done|);
    if ending.Died? {
      assert all[..life] == done[..life];
    }
  }
}
