/**
  Renaming without replacing where the platform has no such rename: link the target, unlink the
  source, and roll the link back if that fails (internal/fileutil/safe.go:267-382). Other processes
  may change the names before every system call.
*/
module LinkRename {
  datatype Place = Place(dir: nat, name: string)

  /** Which file each name refers to. */
  type Names = map<Place, nat>

  datatype Result =
    | Renamed
    | SourceInvalid
    | TargetExists
    | LinkRefused
    | SourceUnverified
    | BothLinked
    | RolledBack

  /** Some name other than `p` refers to the same file. */
  predicate HasOtherName(names: Names, p: Place) {
    p in names && exists q :: q in names && q != p && names[q] == names[p]
  }

  /** The directory tree. `others` is what the other processes make of the names before the `n`-th call,
      `fails` the calls that fail, and `orphaned` says that this process removed a file's last name. */
  class Tree {
    var names: Names
    var clock: nat
    ghost var orphaned: bool
    const others: (nat, Names) -> Names
    const fails: nat -> bool

    constructor (names: Names, others: (nat, Names) -> Names, fails: nat -> bool)
      ensures this.names == names && clock == 0 && !orphaned && this.others == others && this.fails == fails
    {
      this.names, this.others, this.fails := names, others, fails;
      clock, orphaned := 0, false;
    }

    /** Nobody else changes a name before the calls after `from` up to `to`. */
    ghost predicate Quiet(from: nat, to: nat) {
      forall k, m :: from < k <= to ==> others(k, m) == m
    }

    method Call() returns (ok: bool)
      modifies this
      ensures clock == old(clock) + 1 && names == others(clock, old(names)) && orphaned == old(orphaned)
      ensures ok == !fails(clock)
    {
      clock := clock + 1;
      names := others(clock, names);
      ok := !fails(clock);
    }

    /** The file a name refers to; -1 for none, -2 when it cannot be told. */
    method Stat(p: Place) returns (file: int)
      modifies this
      ensures clock == old(clock) + 1 && names == others(clock, old(names)) && orphaned == old(orphaned)
      ensures file == if fails(clock) then -2 else if p in names then names[p] else -1
    {
      var ok := Call();
      file := if !ok then -2 else if p in names then names[p] else -1;
    }

    /** A second name for a file, refused if the name is taken. */
    method Link(from: Place, to: Place) returns (r: Result)
      modifies this
      ensures clock == old(clock) + 1 && orphaned == old(orphaned)
      ensures
        var m := others(clock, old(names));
        if fails(clock) || from !in m then r == LinkRefused && names == m
        else if to in m then r == TargetExists && names == m
        else r == Renamed && names == m[to := m[from]]
    {
      var ok := Call();
      if !ok || from !in names {
        return LinkRefused;
      }
      if to in names {
        return TargetExists;
      }
      names := names[to := names[from]];
      r := Renamed;
    }

    method Unlink(p: Place) returns (ok: bool)
      modifies this
      ensures clock == old(clock) + 1
      ensures
        var m := others(clock, old(names));
        if fails(clock) || p !in m then !ok && names == m && orphaned == old(orphaned)
        else ok && names == m - {p} && orphaned == (old(orphaned) || !HasOtherName(m, p))
    {
      ok := Call();
      if !ok || p !in names {
        return false;
      }
      orphaned := orphaned || !HasOtherName(names, p);
      names := names - {p};
    }
  }

  /** rollbackLinkedRenameTarget: the link goes only while it still is the linked file. */
  method RollBack(t: Tree, target: Place, linked: nat) returns (ok: bool)
    modifies t
    ensures old(t.clock) < t.clock <= old(t.clock) + 2
    ensures t.Quiet(old(t.clock), old(t.clock) + 2) ==>
              t.names == if ok then old(t.names) - {target} else old(t.names)
    ensures t.Quiet(old(t.clock), old(t.clock) + 2) && (exists q :: q in old(t.names) && q != target && old(t.names)[q] == linked) ==>
              t.orphaned == old(t.orphaned)
    ensures
      var n := old(t.clock);
      var checked := t.others(n + 1, old(t.names));
      var last := t.others(n + 2, checked);
      if t.fails(n + 1) || target !in checked || checked[target] != linked then
        t.names == checked && t.orphaned == old(t.orphaned) && (ok <==> !t.fails(n + 1) && target !in checked)
      else if t.fails(n + 2) || target !in last then
        t.names == last && t.orphaned == old(t.orphaned) && !ok
      else
        ok && t.names == last - {target} && (t.orphaned <==> old(t.orphaned) || !HasOtherName(last, target))
  {
    var file := t.Stat(target);
    if file == -1 {
      return true;
    }
    if file == -2 || file != linked {
      return false;
    }
    ok := t.Unlink(target);
  }

  /** The rollback takes a file's last name away: from call `n` on, the source name is seen on the linked
      file, the target too, and the unlink finds no other name. */
  ghost predicate RollbackLoses(t: Tree, n: nat, names: Names, source: Place, target: Place, linked: nat) {
    var first := t.others(n + 1, names);
    var checked := t.others(n + 2, first);
    var last := t.others(n + 3, checked);
    && !t.fails(n + 1) && source in first && first[source] == linked
    && !t.fails(n + 2) && target in checked && checked[target] == linked
    && !t.fails(n + 3) && target in last && !HasOtherName(last, target)
  }

  /** resolveLinkedRenameUnlinkFailure. */
  method Resolve(t: Tree, source: Place, target: Place, linked: nat) returns (r: Result)
    requires source != target
    modifies t
    ensures old(t.clock) < t.clock <= old(t.clock) + 3
    ensures r == Renamed || r == SourceUnverified || r == BothLinked || r == RolledBack
    ensures t.Quiet(old(t.clock) + 1, old(t.clock) + 3) ==> t.orphaned == old(t.orphaned)
    ensures t.Quiet(old(t.clock), old(t.clock) + 3) && source in old(t.names) && old(t.names)[source] == linked ==>
              t.names == (if r == RolledBack then old(t.names) - {target} else old(t.names)) && r != Renamed
    ensures t.Quiet(old(t.clock), old(t.clock) + 3) && (source !in old(t.names) || old(t.names)[source] != linked) ==>
              t.names == old(t.names) && (r == Renamed || r == SourceUnverified)
    ensures
      var n := old(t.clock);
      var first := t.others(n + 1, old(t.names));
      var checked := t.others(n + 2, first);
      var last := t.others(n + 3, checked);
      if t.fails(n + 1) || source !in first || first[source] != linked then
        t.names == first && t.orphaned == old(t.orphaned) && r == if t.fails(n + 1) then SourceUnverified else Renamed
      else if !t.fails(n + 2) && target in checked && checked[target] == linked && !t.fails(n + 3) && target in last then
        r == RolledBack && t.names == last - {target} && (t.orphaned <==> old(t.orphaned) || !HasOtherName(last, target))
      else
        t.orphaned == old(t.orphaned) && r == if !t.fails(n + 2) && target !in checked then RolledBack else BothLinked
    ensures t.orphaned <==> old(t.orphaned) || RollbackLoses(t, old(t.clock), old(t.names), source, target, linked)
  {
    var file := t.Stat(source);
    if file == -1 {
      return Renamed;
    }
    if file == -2 {
      return SourceUnverified;
    }
    if file != linked {
      return Renamed;
    }
    ghost var m := t.names;
    assert source in m && source != target && m[source] == linked;
    var ok := RollBack(t, target, linked);
    r := if ok then RolledBack else BothLinked;
  }

  /** What a rename leaves when nobody else touches the names. */
  ghost predicate Left(before: Names, after: Names, source: Place, target: Place, r: Result) {
    match r
    case Renamed => source in before && target !in before && after == before[target := before[source]] - {source}
    case SourceUnverified => source in before && target !in before && after == before[target := before[source]]
    case BothLinked => source in before && target !in before && after == before[target := before[source]]
    case _ => after == before
  }

  /** The link was made: what the names are then, before anybody else acts. */
  ghost predicate Links(t: Tree, n: nat, names: Names, source: Place, target: Place, regular: nat -> bool) {
    var first := t.others(n + 1, names);
    var second := t.others(n + 2, first);
    var third := t.others(n + 3, second);
    && !t.fails(n + 1) && source in first && regular(first[source])
    && !t.fails(n + 2) && target !in second
    && !t.fails(n + 3) && source in third && target !in third
  }

  ghost function Linked(t: Tree, n: nat, names: Names, source: Place, target: Place, regular: nat -> bool): Names
    requires Links(t, n, names, source, target, regular)
  {
    var third := t.others(n + 3, t.others(n + 2, t.others(n + 1, names)));
    third[target := third[source]]
  }

  /** The rename takes a file's last name away: the unlink finds no other name, or, where it fails, the
      rollback does. */
  ghost predicate RenameLoses(t: Tree, n: nat, names: Names, source: Place, target: Place, regular: nat -> bool) {
    && Links(t, n, names, source, target, regular)
    && var m := t.others(n + 4, Linked(t, n, names, source, target, regular));
       if !t.fails(n + 4) && source in m then !HasOtherName(m, source)
       else RollbackLoses(t, n + 4, m, source, target, t.others(n + 1, names)[source])
  }

  /** The checks and the link. */
  method LinkNew(t: Tree, source: Place, target: Place, regular: nat -> bool) returns (r: Result, file: int)
    requires source != target
    modifies t
    ensures t.orphaned == old(t.orphaned) && r != RolledBack && r != BothLinked && r != SourceUnverified
    ensures r == Renamed <==> Links(t, old(t.clock), old(t.names), source, target, regular)
    ensures r == Renamed ==>
              && t.clock == old(t.clock) + 3 && t.names == Linked(t, old(t.clock), old(t.names), source, target, regular)
              && file == t.others(old(t.clock) + 1, old(t.names))[source]
    ensures r != Renamed && t.Quiet(old(t.clock), old(t.clock) + 3) ==>
              && t.names == old(t.names)
              && ((forall n :: !t.fails(n)) ==>
                    r == if source !in old(t.names) || !regular(old(t.names)[source]) then SourceInvalid else TargetExists)
  {
    file := t.Stat(source);
    if file < 0 || !regular(file) {
      return SourceInvalid, file;
    }
    var existing := t.Stat(target);
    if existing != -1 {
      return TargetExists, file;
    }
    r := t.Link(source, target);
  }

  /** The unlink of the source, and what is done if it fails. */
  method UnlinkLinked(t: Tree, source: Place, target: Place, linked: nat) returns (r: Result)
    requires source != target
    modifies t
    ensures
      var n := old(t.clock);
      var m := t.others(n + 1, old(t.names));
      if !t.fails(n + 1) && source in m then
        r == Renamed && t.names == m - {source} && (t.orphaned <==> old(t.orphaned) || !HasOtherName(m, source))
      else
        t.orphaned <==> old(t.orphaned) || RollbackLoses(t, n + 1, m, source, target, linked)
    ensures t.Quiet(old(t.clock), old(t.clock) + 4) && source in old(t.names) && old(t.names)[source] == linked ==>
              t.names == match r
                         case Renamed => old(t.names) - {source}
                         case RolledBack => old(t.names) - {target}
                         case _ => old(t.names)
    ensures t.Quiet(old(t.clock), old(t.clock) + 4) && source in old(t.names) && old(t.names)[source] == linked ==>
              r == Renamed || r == SourceUnverified || r == BothLinked || r == RolledBack
    ensures t.Quiet(old(t.clock), old(t.clock) + 4) && source in old(t.names) && old(t.names)[source] == linked
            && target in old(t.names) && old(t.names)[target] == linked && (forall n :: t.fails(n) <==> n == old(t.clock) + 1) ==>
              r == RolledBack
  {
    var ok := t.Unlink(source);
    if ok {
      return Renamed;
    }
    r := Resolve(t, source, target, linked);
  }

  /** The rename, judged call by call. */
  method LinkThenUnlink(t: Tree, source: Place, target: Place, regular: nat -> bool) returns (r: Result)
    requires source != target && !t.orphaned
    modifies t
    ensures t.Quiet(old(t.clock), old(t.clock) + 7) ==> Left(old(t.names), t.names, source, target, r)
    ensures t.Quiet(old(t.clock), old(t.clock) + 7) && (forall n :: !t.fails(n)) ==>
              r == if source !in old(t.names) || !regular(old(t.names)[source]) then SourceInvalid
                   else if target in old(t.names) then TargetExists else Renamed
    ensures t.Quiet(old(t.clock), old(t.clock) + 7) && (forall n :: t.fails(n) <==> n == old(t.clock) + 4)
            && source in old(t.names) && regular(old(t.names)[source]) && target !in old(t.names) ==>
              r == RolledBack
    ensures t.orphaned <==> RenameLoses(t, old(t.clock), old(t.names), source, target, regular)
    ensures Unlinks(t, old(t.clock), old(t.names), source, target, regular) ==> r == Renamed && source !in t.names
  {
    var file;
    r, file := LinkNew(t, source, target, regular);
    if r != Renamed {
      return;
    }
    r := UnlinkLinked(t, source, target, file);
  }

  /**
    renameAtNoSymlinkNoReplaceFallback for a regular file. Undisturbed, it either renames, or leaves both
    names, or leaves everything as it was, and says which. It removes a file's last name exactly when the
    unlink of the source finds no other name, or the rollback does; so never as long as nobody else acts
    between the link and the unlink, or between the source check and the rollback.
  */
  method Rename(t: Tree, source: Place, target: Place, regular: nat -> bool) returns (r: Result)
    requires source != target && !t.orphaned
    modifies t
    ensures t.Quiet(old(t.clock), old(t.clock) + 7) ==> Left(old(t.names), t.names, source, target, r)
    ensures t.Quiet(old(t.clock), old(t.clock) + 7) && (forall n :: !t.fails(n)) ==>
              r == if source !in old(t.names) || !regular(old(t.names)[source]) then SourceInvalid
                   else if target in old(t.names) then TargetExists else Renamed
    ensures t.Quiet(old(t.clock), old(t.clock) + 7) && (forall n :: t.fails(n) <==> n == old(t.clock) + 4)
            && source in old(t.names) && regular(old(t.names)[source]) && target !in old(t.names) ==>
              r == RolledBack
    ensures t.Quiet(old(t.clock) + 3, old(t.clock) + 4) && t.Quiet(old(t.clock) + 5, old(t.clock) + 7) ==> !t.orphaned
    ensures t.orphaned <==> RenameLoses(t, old(t.clock), old(t.names), source, target, regular)
    ensures Unlinks(t, old(t.clock), old(t.names), source, target, regular) ==> r == Renamed && source !in t.names
  {
    if t.Quiet(t.clock + 3, t.clock + 4) && t.Quiet(t.clock + 5, t.clock + 7) {
      QuietRenameLosesNothing(t, t.clock, t.names, source, target, regular);
    }
    r := LinkThenUnlink(t, source, target, regular);
  }

  /** Link and unlink both succeed. */
  ghost predicate Unlinks(t: Tree, n: nat, names: Names, source: Place, target: Place, regular: nat -> bool) {
    && Links(t, n, names, source, target, regular)
    && !t.fails(n + 4) && source in t.others(n + 4, Linked(t, n, names, source, target, regular))
  }

  /** No last name is lost as long as nobody else acts between the link and the unlink, or between the source
      check and the rollback. */
  lemma QuietRenameLosesNothing(t: Tree, n: nat, names: Names, source: Place, target: Place, regular: nat -> bool)
    requires source != target && t.Quiet(n + 3, n + 4) && t.Quiet(n + 5, n + 7)
    ensures !RenameLoses(t, n, names, source, target, regular)
  {
    if Links(t, n, names, source, target, regular) {
      var m := Linked(t, n, names, source, target, regular);
      assert t.others(n + 4, m) == m && m[target] == m[source] && target in m && source in m;
    }
  }

  /** The rollback is not safe against a process that removes the source name after it was checked: it
      then removes the file's last name. */
  method RollbackRace(t: Tree, source: Place, target: Place, linked: nat) returns (r: Result)
    requires source != target && !t.orphaned && t.names == map[source := linked, target := linked]
    requires t.others(t.clock + 1, t.names) == t.names
    requires t.others(t.clock + 2, t.names) == map[target := linked]
    requires t.others(t.clock + 3, map[target := linked]) == map[target := linked]
    requires forall n :: !t.fails(n)
    modifies t
    ensures r == RolledBack && t.orphaned && t.names == map[]
  {
    r := Resolve(t, source, target, linked);
    assert map[target := linked] - {target} == map[];
  }

  /** Nor is the rename itself safe against a process that removes the target name between the link and the
      unlink: it reports success and has removed the file's last name. */
  method UnlinkRace(t: Tree, source: Place, target: Place, file: nat, regular: nat -> bool) returns (r: Result)
    requires source != target && !t.orphaned && t.names == map[source := file] && regular(file)
    requires t.Quiet(t.clock, t.clock + 3) && forall n :: !t.fails(n)
    requires t.others(t.clock + 4, map[source := file, target := file]) == map[source := file]
    modifies t
    ensures r == Renamed && t.orphaned
  {
    ghost var n, names := t.clock, t.names;
    assert t.others(n + 1, names) == names && t.others(n + 2, names) == names && t.others(n + 3, names) == names;
    assert Links(t, n, names, source, target, regular);
    assert Linked(t, n, names, source, target, regular) == map[source := file, target := file];
    r := Rename(t, source, target, regular);
  }
}
