/**
  The atomic commit of a file: write a temporary, sync it, rename it over the target, sync the
  directory. The disk forgets what was not synced, so every state on the way is judged by what a
  crash could leave behind (internal/fileutil/atomic_commit.go:43-210).
*/
module AtomicCommit {
  type Bytes = seq<nat>

  datatype Ref = Absent | Inode(id: nat)

  /** A file's cached content, and whether all of it reached the disk. */
  datatype File = File(content: Bytes, synced: bool)

  /** What a name refers to now, and what it may refer to after a crash. */
  datatype Entry = Entry(now: Ref, possible: set<Ref>)

  datatype Disk = Disk(files: map<nat, File>, dirs: map<nat, map<string, Entry>>)

  function EntryOf(disk: Disk, dir: nat, name: string): Entry {
    if dir in disk.dirs && name in disk.dirs[dir] then disk.dirs[dir][name] else Entry(Absent, {Absent})
  }

  function SetEntry(disk: Disk, dir: nat, name: string, e: Entry): Disk
    requires dir in disk.dirs
  {
    disk.(dirs := disk.dirs[dir := disk.dirs[dir][name := e]])
  }

  /** A name changes in the cache; after a crash it may still be what it could be before. */
  function Point(disk: Disk, dir: nat, name: string, to: Ref): Disk
    requires dir in disk.dirs
  {
    SetEntry(disk, dir, name, Entry(to, EntryOf(disk, dir, name).possible + {to}))
  }

  function WriteFile(disk: Disk, id: nat, content: Bytes): Disk {
    disk.(files := disk.files[id := File(content, false)])
  }

  function SyncFile(disk: Disk, id: nat): Disk
    requires id in disk.files
  {
    disk.(files := disk.files[id := disk.files[id].(synced := true)])
  }

  /** A directory sync settles every entry of the directory. */
  function SyncDir(disk: Disk, dir: nat): Disk
    requires dir in disk.dirs
  {
    var settled := map name | name in disk.dirs[dir] :: Entry(disk.dirs[dir][name].now, {disk.dirs[dir][name].now});
    disk.(dirs := disk.dirs[dir := settled])
  }

  /** Renaming is one step: afterwards a crash leaves the target as it could be before, or renamed. */
  function Rename(disk: Disk, dir: nat, from: string, to: string): Disk
    requires dir in disk.dirs
  {
    var source := EntryOf(disk, dir, from);
    Point(Point(disk, dir, to, source.now), dir, from, Absent)
  }

  /** What reading the name after a crash may give; an unsynced file may hold anything. */
  datatype Read = Missing | Contents(bytes: Bytes)

  ghost predicate MayRead(disk: Disk, dir: nat, name: string, r: Read) {
    exists ref :: ref in EntryOf(disk, dir, name).possible && RefReads(disk, ref, r)
  }

  ghost predicate RefReads(disk: Disk, ref: Ref, r: Read) {
    match ref
    case Absent => r.Missing?
    case Inode(id) => r.Contents? && (id in disk.files && disk.files[id].synced ==> r.bytes == disk.files[id].content)
  }

  /** Everything the disk knew stays as it was, and the name may only become the complete new file. */
  ghost predicate CrashSafe(before: Disk, s: Disk, dir: nat, name: string, tmp: nat, data: Bytes) {
    && (forall id :: id in before.files ==> id in s.files && s.files[id] == before.files[id])
    && (forall ref :: ref in EntryOf(s, dir, name).possible ==>
          ref in EntryOf(before, dir, name).possible || (ref == Inode(tmp) && Complete(s, tmp, data)))
  }

  predicate Complete(s: Disk, tmp: nat, data: Bytes) {
    tmp in s.files && s.files[tmp] == File(data, true)
  }

  /** A crash at a safe point leaves the complete old content or the complete new content. */
  lemma CrashLeavesOldOrNew(before: Disk, s: Disk, dir: nat, name: string, tmp: nat, data: Bytes, r: Read)
    requires CrashSafe(before, s, dir, name, tmp, data) && MayRead(s, dir, name, r)
    requires forall ref :: ref in EntryOf(before, dir, name).possible && ref.Inode? ==> ref.id in before.files
    ensures MayRead(before, dir, name, r) || r == Contents(data)
  {
    var ref :| ref in EntryOf(s, dir, name).possible && RefReads(s, ref, r);
    if ref in EntryOf(before, dir, name).possible {
      assert RefReads(before, ref, r);
    }
  }

  // ---------- the file system a commit works on ----------

  /** Every operation may fail; `trace` is every state the disk went through. */
  class FileSystem {
    var disk: Disk
    var clock: nat
    ghost var trace: seq<Disk>
    const fails: nat -> bool

    constructor (disk: Disk, fails: nat -> bool)
      ensures this.disk == disk && trace == [disk] && this.fails == fails
    {
      this.disk, this.clock, this.fails := disk, 0, fails;
      trace := [disk];
    }

    /** No call fails. */
    ghost predicate Smooth() {
      forall n :: !fails(n)
    }

    /** A check or hook without effect, which may refuse. */
    method Check() returns (ok: bool)
      modifies this`clock
      ensures ok == !fails(old(clock))
    {
      ok := !fails(clock);
      clock := clock + 1;
    }

    method Become(next: Disk)
      modifies this`disk, this`trace
      ensures disk == next && trace == old(trace) + [next]
    {
      disk, trace := next, trace + [next];
    }
  }

  /** One level of the opened chain: a directory and the name its parent knows it by. */
  datatype Level = Level(dir: nat, name: string)

  /** The target of a commit, the opened directories down to its parent, and its temporary. */
  datatype Plan = Plan(chain: seq<Level>, base: string, temp: string, tmp: nat, data: Bytes)

  function Parent(p: Plan): nat
    requires p.chain != []
  {
    p.chain[|p.chain| - 1].dir
  }

  function Target(disk: Disk, p: Plan): Entry
    requires p.chain != []
  {
    EntryOf(disk, Parent(p), p.base)
  }

  function Temporary(disk: Disk, p: Plan): Entry
    requires p.chain != []
  {
    EntryOf(disk, Parent(p), p.temp)
  }

  function LinkOf(disk: Disk, p: Plan, i: nat): Entry
    requires 0 < i < |p.chain|
  {
    EntryOf(disk, p.chain[i - 1].dir, p.chain[i].name)
  }

  /** Distinct directories, and a temporary name and inode of its own. */
  predicate WellFormed(p: Plan) {
    p.chain != [] && p.temp != p.base && forall i, j :: 0 <= i < j < |p.chain| ==> p.chain[i].dir != p.chain[j].dir
  }

  /** Each directory of the chain exists and is where its parent says it is. */
  predicate Standing(disk: Disk, p: Plan) {
    && WellFormed(p)
    && (forall i :: 0 <= i < |p.chain| ==> p.chain[i].dir in disk.dirs)
    && (forall i :: 0 < i < |p.chain| ==> LinkOf(disk, p, i).now == Inode(p.chain[i].dir))
  }

  /** Every entry on the way down from level `i` is settled. */
  predicate Settled(disk: Disk, p: Plan, i: nat) {
    forall j :: 0 < j < |p.chain| && i < j ==> LinkOf(disk, p, j) == Entry(Inode(p.chain[j].dir), {Inode(p.chain[j].dir)})
  }

  /** What the kernel grants a temporary: a name that is free and an inode nothing refers to. */
  ghost predicate Grants(before: Disk, p: Plan) {
    && p.chain != [] && p.tmp !in before.files
    && Inode(p.tmp) !in Target(before, p).possible
    && Temporary(before, p).now.Absent?
  }

  // ---------- the states on the way ----------

  ghost predicate FilesKept(before: Disk, s: Disk) {
    forall id :: id in before.files ==> id in s.files && s.files[id] == before.files[id]
  }

  ghost predicate NowPossible(s: Disk, p: Plan)
    requires p.chain != []
  {
    && Target(s, p).now in Target(s, p).possible
    && forall i :: 0 < i < |p.chain| ==> LinkOf(s, p, i).now in LinkOf(s, p, i).possible
  }

  /** Before publication the target is what it was. */
  ghost predicate Unpublished(before: Disk, s: Disk, p: Plan) {
    && Standing(s, p) && FilesKept(before, s) && NowPossible(s, p)
    && Target(s, p).now == Target(before, p).now
    && Target(s, p).possible <= Target(before, p).possible
  }

  /** From publication on the target is the complete new file, or, after a crash, possibly what it was. */
  ghost predicate Published(before: Disk, s: Disk, p: Plan) {
    && Standing(s, p) && FilesKept(before, s) && Complete(s, p.tmp, p.data)
    && Target(s, p).now == Inode(p.tmp)
    && Target(s, p).possible <= Target(before, p).possible + {Inode(p.tmp)}
  }

  ghost predicate AllSafe(before: Disk, trace: seq<Disk>, p: Plan)
    requires p.chain != []
  {
    && trace != [] && trace[0] == before
    && forall s :: s in trace ==> CrashSafe(before, s, Parent(p), p.base, p.tmp, p.data)
  }

  lemma UnpublishedIsSafe(before: Disk, s: Disk, p: Plan)
    requires WellFormed(p) && Unpublished(before, s, p)
    ensures CrashSafe(before, s, Parent(p), p.base, p.tmp, p.data)
  {
  }

  lemma PublishedIsSafe(before: Disk, s: Disk, p: Plan)
    requires WellFormed(p) && Published(before, s, p)
    ensures CrashSafe(before, s, Parent(p), p.base, p.tmp, p.data)
  {
  }

  lemma SyncDirEffect(s: Disk, dir: nat, d: nat, name: string)
    requires dir in s.dirs
    ensures
      var e, f := EntryOf(s, d, name), EntryOf(SyncDir(s, dir), d, name);
      f == if d == dir then Entry(e.now, {e.now}) else e
  {
  }

  lemma PointEffect(s: Disk, dir: nat, at: string, to: Ref, d: nat, name: string)
    requires dir in s.dirs
    ensures
      var e, f := EntryOf(s, d, name), EntryOf(Point(s, dir, at, to), d, name);
      f == if d == dir && name == at then Entry(to, e.possible + {to}) else e
  {
  }

  /** Syncing a directory of the chain keeps the target as it was and settles what hangs below it. */
  lemma SyncChainStep(before: Disk, s: Disk, p: Plan, i: nat)
    requires Unpublished(before, s, p) && i < |p.chain| && Settled(s, p, i + 1)
    ensures Unpublished(before, SyncDir(s, p.chain[i].dir), p) && Settled(SyncDir(s, p.chain[i].dir), p, i)
  {
    var dir := p.chain[i].dir;
    SyncDirEffect(s, dir, Parent(p), p.base);
    forall j | 0 < j < |p.chain|
      ensures LinkOf(SyncDir(s, dir), p, j) == if j - 1 == i then Entry(LinkOf(s, p, j).now, {LinkOf(s, p, j).now}) else LinkOf(s, p, j)
    {
      SyncDirEffect(s, dir, p.chain[j - 1].dir, p.chain[j].name);
    }
  }

  /** Changing a name in the parent leaves the links of the chain alone. */
  lemma PointKeepsLinks(s: Disk, p: Plan, name: string, to: Ref)
    requires Standing(s, p)
    ensures
      var t := Point(s, Parent(p), name, to);
      && Standing(t, p)
      && (forall i :: 0 < i < |p.chain| ==> LinkOf(t, p, i) == LinkOf(s, p, i))
  {
    forall i | 0 < i < |p.chain|
      ensures LinkOf(Point(s, Parent(p), name, to), p, i) == LinkOf(s, p, i)
    {
      PointEffect(s, Parent(p), name, to, p.chain[i - 1].dir, p.chain[i].name);
    }
  }

  /** Creating, filling and syncing the temporary keep the target as it was. */
  lemma TempKeeps(before: Disk, s: Disk, p: Plan, to: Ref)
    requires Unpublished(before, s, p) && Grants(before, p)
    ensures Unpublished(before, Point(s, Parent(p), p.temp, to), p)
    ensures Temporary(Point(s, Parent(p), p.temp, to), p).now == to
  {
    PointKeepsLinks(s, p, p.temp, to);
    PointEffect(s, Parent(p), p.temp, to, Parent(p), p.base);
  }

  lemma FileKeeps(before: Disk, s: Disk, p: Plan, f: File)
    requires Unpublished(before, s, p) && Grants(before, p)
    ensures Unpublished(before, s.(files := s.files[p.tmp := f]), p)
    ensures Temporary(s.(files := s.files[p.tmp := f]), p) == Temporary(s, p)
    ensures forall i :: 0 < i < |p.chain| ==> LinkOf(s.(files := s.files[p.tmp := f]), p, i) == LinkOf(s, p, i)
  {
  }

  /** Publication. */
  lemma {:induction false} RenamePublishes(before: Disk, s: Disk, p: Plan)
    requires Unpublished(before, s, p) && Temporary(s, p).now == Inode(p.tmp) && Complete(s, p.tmp, p.data)
    ensures
      var t := Rename(s, Parent(p), p.temp, p.base);
      && Published(before, t, p) && Temporary(t, p).now.Absent?
      && forall i :: 0 < i < |p.chain| ==> LinkOf(t, p, i) == LinkOf(s, p, i)
  {
    var mid := Point(s, Parent(p), p.base, Inode(p.tmp));
    PointKeepsLinks(s, p, p.base, Inode(p.tmp));
    PointKeepsLinks(mid, p, p.temp, Absent);
    PointEffect(s, Parent(p), p.base, Inode(p.tmp), Parent(p), p.base);
    PointEffect(mid, Parent(p), p.temp, Absent, Parent(p), p.base);
  }

  /** The final directory sync makes the new entry durable. */
  lemma SyncPublished(before: Disk, s: Disk, p: Plan)
    requires Published(before, s, p)
    ensures
      var t := SyncDir(s, Parent(p));
      && Published(before, t, p) && Target(t, p) == Entry(Inode(p.tmp), {Inode(p.tmp)})
      && forall i :: 0 < i < |p.chain| ==> LinkOf(t, p, i) == LinkOf(s, p, i)
  {
    SyncDirEffect(s, Parent(p), Parent(p), p.base);
    forall i | 0 < i < |p.chain|
      ensures LinkOf(SyncDir(s, Parent(p)), p, i) == LinkOf(s, p, i)
    {
      SyncDirEffect(s, Parent(p), p.chain[i - 1].dir, p.chain[i].name);
    }
  }

  // ---------- the procedure ----------

  datatype Outcome = NotPublished | PublishedUnconfirmed | Committed

  /** validateAtomicCommitDirectories: every directory is still where its parent says. */
  method ValidateChain(fs: FileSystem, p: Plan) returns (ok: bool)
    requires WellFormed(p) && forall i :: 0 <= i < |p.chain| ==> p.chain[i].dir in fs.disk.dirs
    modifies fs`clock
    ensures ok ==> Standing(fs.disk, p)
    ensures fs.Smooth() && Standing(fs.disk, p) ==> ok
  {
    for i := 0 to |p.chain|
      invariant forall j :: 0 < j < i ==> LinkOf(fs.disk, p, j).now == Inode(p.chain[j].dir)
    {
      ok := fs.Check();
      if !ok {
        return;
      }
      if i > 0 && LinkOf(fs.disk, p, i).now != Inode(p.chain[i].dir) {
        return false;
      }
    }
    ok := true;
  }

  /** The part of the work before the temporary exists: nothing was published, every crash is safe. */
  ghost predicate Quiet(before: Disk, fs: FileSystem, p: Plan)
    reads fs
  {
    WellFormed(p) && Unpublished(before, fs.disk, p) && AllSafe(before, fs.trace, p)
  }

  method SyncChain(fs: FileSystem, p: Plan, ghost before: Disk) returns (ok: bool)
    requires Quiet(before, fs, p)
    modifies fs
    ensures Quiet(before, fs, p) && Temporary(fs.disk, p).now == Temporary(old(fs.disk), p).now
    ensures ok ==> Settled(fs.disk, p, 0)
    ensures fs.Smooth() ==> ok
  {
    var i := |p.chain|;
    while i > 0
      invariant 0 <= i <= |p.chain| && Quiet(before, fs, p) && Settled(fs.disk, p, i)
      invariant Temporary(fs.disk, p).now == Temporary(old(fs.disk), p).now
    {
      i := i - 1;
      ok := fs.Check();
      if !ok {
        return;
      }
      ok := ValidateChain(fs, p);
      if !ok {
        return;
      }
      ok := fs.Check();
      if !ok {
        return;
      }
      SyncChainStep(before, fs.disk, p, i);
      SyncDirEffect(fs.disk, p.chain[i].dir, Parent(p), p.temp);
      fs.Become(SyncDir(fs.disk, p.chain[i].dir));
      UnpublishedIsSafe(before, fs.disk, p);
      ok := ValidateChain(fs, p);
      if !ok {
        return;
      }
    }
    ok := true;
  }

  ghost predicate ChainKept(a: Disk, b: Disk, p: Plan) {
    forall i :: 0 < i < |p.chain| ==> LinkOf(a, p, i) == LinkOf(b, p, i)
  }

  /** Creates, fills and syncs the temporary. `written` is how many bytes the write reports. */
  method Stage(fs: FileSystem, p: Plan, written: nat, ghost before: Disk) returns (ok: bool, created: bool)
    requires Quiet(before, fs, p) && Grants(before, p) && Temporary(fs.disk, p).now.Absent?
    modifies fs
    ensures Quiet(before, fs, p) && ChainKept(old(fs.disk), fs.disk, p)
    ensures Temporary(fs.disk, p).now == if created then Inode(p.tmp) else Absent
    ensures ok ==> created && Complete(fs.disk, p.tmp, p.data)
    ensures fs.Smooth() ==> (ok <==> written >= |p.data|)
    ensures written < |p.data| ==> !ok
  {
    created := false;
    ok := fs.Check();
    if !ok {
      return;
    }
    FileKeeps(before, fs.disk, p, File([], false));
    TempKeeps(before, WriteFile(fs.disk, p.tmp, []), p, Inode(p.tmp));
    PointKeepsLinks(WriteFile(fs.disk, p.tmp, []), p, p.temp, Inode(p.tmp));
    fs.Become(Point(WriteFile(fs.disk, p.tmp, []), Parent(p), p.temp, Inode(p.tmp)));
    UnpublishedIsSafe(before, fs.disk, p);
    created := true;
    ok := fs.Check();
    if !ok {
      return;
    }
    var n := if written <= |p.data| then written else |p.data|;
    FileKeeps(before, fs.disk, p, File(p.data[..n], false));
    fs.Become(WriteFile(fs.disk, p.tmp, p.data[..n]));
    UnpublishedIsSafe(before, fs.disk, p);
    ok := fs.Check();
    if !ok {
      return;
    }
    if n != |p.data| {
      return false, created;
    }
    assert p.data[..n] == p.data;
    ok := fs.Check();
    if !ok {
      return;
    }
    ok := fs.Check();
    if !ok {
      return;
    }
    FileKeeps(before, fs.disk, p, File(p.data, true));
    fs.Become(SyncFile(fs.disk, p.tmp));
    UnpublishedIsSafe(before, fs.disk, p);
  }

  /** The checks between staging and publication. */
  method CheckBeforePublish(fs: FileSystem, p: Plan) returns (ok: bool)
    requires Standing(fs.disk, p)
    modifies fs`clock
    ensures ok ==> Temporary(fs.disk, p).now == Inode(p.tmp)
    ensures fs.Smooth() && Temporary(fs.disk, p).now == Inode(p.tmp) ==> ok
  {
    ok := fs.Check();
    if !ok {
      return;
    }
    ok := ValidateChain(fs, p);
    if !ok {
      return;
    }
    ok := fs.Check();
    if !ok {
      return;
    }
    ok := Temporary(fs.disk, p).now == Inode(p.tmp);
  }

  /** The confirmation after publication. */
  method Confirm(fs: FileSystem, p: Plan, ghost before: Disk) returns (outcome: Outcome, ok: bool)
    requires WellFormed(p) && Published(before, fs.disk, p) && AllSafe(before, fs.trace, p)
    modifies fs
    ensures outcome == PublishedUnconfirmed || outcome == Committed
    ensures Published(before, fs.disk, p) && AllSafe(before, fs.trace, p) && ChainKept(old(fs.disk), fs.disk, p)
    ensures Temporary(fs.disk, p).now == Temporary(old(fs.disk), p).now
    ensures outcome == Committed ==> Target(fs.disk, p) == Entry(Inode(p.tmp), {Inode(p.tmp)})
    ensures ok ==> outcome == Committed
    ensures fs.Smooth() ==> ok
  {
    outcome := PublishedUnconfirmed;
    ok := fs.Check();
    if !ok {
      return;
    }
    ok := ValidateChain(fs, p);
    if !ok {
      return;
    }
    ok := fs.Check();
    if !ok {
      return;
    }
    ok := ValidateChain(fs, p);
    if !ok {
      return;
    }
    ok := fs.Check();
    if !ok {
      return;
    }
    SyncPublished(before, fs.disk, p);
    SyncDirEffect(fs.disk, Parent(p), Parent(p), p.temp);
    fs.Become(SyncDir(fs.disk, Parent(p)));
    PublishedIsSafe(before, fs.disk, p);
    ok := ValidateChain(fs, p);
    if !ok {
      return;
    }
    outcome := Committed;
    ok := fs.Check();
  }

  /** What the outcome says of the disk and of every crash on the way. */
  ghost predicate Told(before: Disk, s: Disk, p: Plan, syncChain: bool, outcome: Outcome) {
    match outcome
    case NotPublished => Unpublished(before, s, p)
    case PublishedUnconfirmed => Published(before, s, p)
    case Committed =>
      && Published(before, s, p)
      && Target(s, p) == Entry(Inode(p.tmp), {Inode(p.tmp)})
      && (syncChain ==> Settled(s, p, 0))
  }

  /** The deferred removal of the temporary name; its failure is ignored. */
  method RemoveTemp(fs: FileSystem, p: Plan, ghost before: Disk, ghost syncChain: bool, ghost outcome: Outcome)
    requires WellFormed(p) && Grants(before, p) && Told(before, fs.disk, p, syncChain, outcome) && AllSafe(before, fs.trace, p)
    modifies fs
    ensures Told(before, fs.disk, p, syncChain, outcome) && AllSafe(before, fs.trace, p)
    ensures Temporary(old(fs.disk), p).now.Absent? || fs.Smooth() ==> Temporary(fs.disk, p).now.Absent?
  {
    var ok := fs.Check();
    if ok && Temporary(fs.disk, p).now.Inode? {
      PointKeepsLinks(fs.disk, p, p.temp, Absent);
      PointEffect(fs.disk, Parent(p), p.temp, Absent, Parent(p), p.base);
      fs.Become(Point(fs.disk, Parent(p), p.temp, Absent));
      if outcome == NotPublished {
        UnpublishedIsSafe(before, fs.disk, p);
      } else {
        PublishedIsSafe(before, fs.disk, p);
      }
    }
  }

  /**
    AtomicCommitFileNoSymlink. Whatever fails, and wherever a crash strikes, the target is the complete
    old or the complete new file. Not published means that the old entry stands; committed means that
    the new content and its entry are durable, and, with the parent chain synced, every entry above it.
    When nothing fails, the commit succeeds exactly when the write takes every byte, and leaves no temporary.
  */
  method CommitFile(fs: FileSystem, p: Plan, syncChain: bool, written: nat) returns (outcome: Outcome, ok: bool)
    requires Standing(fs.disk, p) && NowPossible(fs.disk, p) && Grants(fs.disk, p) && fs.trace == [fs.disk]
    modifies fs
    ensures AllSafe(old(fs.disk), fs.trace, p)
    ensures Told(old(fs.disk), fs.disk, p, syncChain, outcome)
    ensures ok ==> outcome == Committed
    ensures fs.Smooth() ==> (ok <==> written >= |p.data|) && Temporary(fs.disk, p).now.Absent?
    ensures written < |p.data| ==> outcome == NotPublished && !ok
    ensures outcome != NotPublished ==> Temporary(fs.disk, p).now.Absent?
  {
    ghost var before := fs.disk;
    UnpublishedIsSafe(before, fs.disk, p);
    outcome := NotPublished;
    ok := fs.Check();
    if !ok {
      return;
    }
    if syncChain {
      ok := SyncChain(fs, p, before);
      if !ok {
        return;
      }
    }
    var created;
    ok, created := Stage(fs, p, written, before);
    if ok {
      ok := CheckBeforePublish(fs, p);
    }
    if ok {
      ok := fs.Check();
    }
    if ok {
      RenamePublishes(before, fs.disk, p);
      fs.Become(Rename(fs.disk, Parent(p), p.temp, p.base));
      PublishedIsSafe(before, fs.disk, p);
      outcome, ok := Confirm(fs, p, before);
    }
    if created {
      RemoveTemp(fs, p, before, syncChain, outcome);
    }
  }
}
