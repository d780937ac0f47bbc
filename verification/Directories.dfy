/**
 The directories a section leaves behind.  An atomic write makes the directories above its
 target, and no failure, restore or rollback removes them.
 */
module Directories {
  import opened Wrappers
  import opened Text
  import opened SnapshotId
  import opened Sorting
  import opened Config
  import opened HostState
  import opened Engine
  import opened Recovery

  // ---------- parents of a path ----------

  lemma {:induction false} ParentsAre(path: string, n: nat, dir: string)
    requires n <= |path|
    ensures dir in ParentsUpTo(path, n) <==> exists i :: 1 <= i < n && path[i] == '/' && dir == path[..i]
  {
    if n >= 2 {
      ParentsAre(path, n - 1, dir);
      if path[n - 1] == '/' && dir == path[..n - 1] { assert 1 <= n - 1 < n; }
    }
  }

  lemma AboveAre(path: string, dir: string)
    ensures dir in Above(path) <==> dir in Parents(path)
  {
    hide ParentsUpTo;
    if dir in Parents(path) {
      var i :| 0 <= i < |Parents(path)| && Parents(path)[i] == dir;
    }
  }

  // The directory of a file is among those above it.
  lemma DirectoryIsAbove(dir: string, name: string)
    requires dir != ""
    ensures dir in Above(dir + "/" + name)
  {
    var path := dir + "/" + name;
    assert path[|dir|] == '/' && path[..|dir|] == dir;
    ParentsAre(path, |path|, dir);
    AboveAre(path, dir);
  }

  // ---------- what one operation and a run make ----------

  // The directories above its target that an operation comes to.
  ghost function ReachOf(cfg: Paths, p: Proc, a: Answer): set<string>
    requires InRange(p)
  {
    match p
    case WriteSysctl(_, _) => Reach(cfg.sysctlFile, a)
    case WriteModules(_, _) => Reach(cfg.modulesFile, a)
    case RestoreFile(snap, _, j, _) =>
      var file := snap.files[FileItems(snap)[j]];
      if file.present then Reach(file.path, a) else {}
    case _ => {}
  }

  lemma DirsOfStep(cfg: Paths, h: State, p: Proc, a: Answer)
    requires InRange(p)
    ensures Effect(cfg, h, p, a).dirs == h.dirs + ReachOf(cfg, p, a)
  {
    hide Reach, Leave, SortedKeys, AssignedKeys, Chmod;
  }

  ghost function ReachOfRun(cfg: Paths, h: State, p: Proc, world: nat -> Answer, t: nat, n: nat): set<string>
    requires InRange(p)
  {
    if n == 0 then {}
    else
      var m := Exec(cfg, h, p, world, t, n - 1);
      ReachOfRun(cfg, h, p, world, t, n - 1) + ReachOf(cfg, m.proc, world(t + n - 1))
  }

  // A run adds exactly the directories its writes came to, so it adds none exactly if all
  // of those had been there.
  lemma {:induction false} DirsOfRun(cfg: Paths, h: State, p: Proc, world: nat -> Answer, t: nat, n: nat)
    requires InRange(p)
    ensures Exec(cfg, h, p, world, t, n).host.dirs == h.dirs + ReachOfRun(cfg, h, p, world, t, n)
    ensures Exec(cfg, h, p, world, t, n).host.dirs == h.dirs <==> ReachOfRun(cfg, h, p, world, t, n) <= h.dirs
  {
    hide Next, InRange, Effect, ReachOf;
    if n > 0 {
      DirsOfRun(cfg, h, p, world, t, n - 1);
      var m := Exec(cfg, h, p, world, t, n - 1);
      DirsOfStep(cfg, m.host, m.proc, world(t + n - 1));
    }
  }

  // ---------- where an Apply stands ----------

  function BothAbove(cfg: Paths): set<string> {
    Above(cfg.sysctlFile) + Above(cfg.modulesFile)
  }

  // Failures after both files were written, and failures before any was.
  predicate AfterWrites(failure: Failure) {
    failure.LoadFailed? || failure.ReadFailed? || failure.VerifyMismatch?
  }

  predicate BeforeWrites(failure: Failure) {
    || failure.ModuleLoadFailed? || failure.BbrMissing? || failure.CaptureFailed? || failure.SaveFailed?
    || failure.LatestUnreadable? || failure.InvalidId? || failure.SnapshotUnreadable? || failure.SnapshotInconsistent?
  }

  predicate Between(cfg: Paths, b: set<string>, h: set<string>) {
    b <= h <= b + BothAbove(cfg)
  }

  predicate Restoring(cfg: Paths, b: set<string>, h: set<string>, failure: Option<Failure>) {
    && Between(cfg, b, h)
    && (failure.Some? && AfterWrites(failure.value) ==> h == b + BothAbove(cfg))
    && (failure.Some? ==> !BeforeWrites(failure.value))
  }

  // What the report of a section tells about directories.
  predicate Ends(cfg: Paths, apply: bool, b: set<string>, h: set<string>, report: Report) {
    && Between(cfg, b, h)
    && (report.failure.Some? && AfterWrites(report.failure.value) ==> h == b + BothAbove(cfg))
    && (report.failure.Some? && BeforeWrites(report.failure.value) ==> h == b)
    && (apply && report.failure.None? ==> h == b + BothAbove(cfg))
  }

  ghost predicate DirsInv(cfg: Paths, apply: bool, b: set<string>, h: set<string>, p: Proc)
    requires InRange(p)
  {
    match p
    case WriteModules(_, _) => apply && h == b + Above(cfg.sysctlFile)
    case Load(_, _) => apply && h == b + BothAbove(cfg)
    case VerifyKey(_, _, _, _) => apply && h == b + BothAbove(cfg)
    case RestoreFile(snap, cause, _, _) =>
      SnapshotTest(cfg, snap) && Restoring(cfg, b, h, cause.failure) && (apply ==> cause.failure.Some?)
    case RestoreKey(_, cause, _, _) => Restoring(cfg, b, h, cause.failure) && (apply ==> cause.failure.Some?)
    case RecheckKey(_, cause, _, _) => Restoring(cfg, b, h, cause.failure) && (apply ==> cause.failure.Some?)
    case Finished(report) => Ends(cfg, apply, b, h, report)
    case ReadLatest => !apply && h == b
    case ReadStored(_) => !apply && h == b
    case _ => apply && h == b
  }

  lemma EndedDirs(cfg: Paths, apply: bool, b: set<string>, h: set<string>, snap: Snapshot, cause: Cause, errs: seq<Failure>)
    requires Restoring(cfg, b, h, cause.failure) && (apply ==> cause.failure.Some?)
    ensures InRange(Ended(snap, cause, errs)) && DirsInv(cfg, apply, b, h, Ended(snap, cause, errs))
  {
    hide BothAbove;
  }

  lemma RecheckDirs(cfg: Paths, apply: bool, b: set<string>, h: set<string>, snap: Snapshot, cause: Cause, i: nat, actual: Values)
    requires Restoring(cfg, b, h, cause.failure) && (apply ==> cause.failure.Some?)
    ensures DirsInv(cfg, apply, b, h, AtRecheck(snap, cause, i, actual))
  {
    hide SortedKeys, BothAbove, Restoring, Ended, Compared;
    EndedDirs(cfg, apply, b, h, snap, cause, if Compared(actual, snap.sysctls).ok then [] else [RestoreMismatch]);
  }

  lemma KeyDirs(cfg: Paths, apply: bool, b: set<string>, h: set<string>, snap: Snapshot, cause: Cause, i: nat, errs: seq<Failure>)
    requires Restoring(cfg, b, h, cause.failure) && (apply ==> cause.failure.Some?)
    ensures DirsInv(cfg, apply, b, h, AtRestoreKey(snap, cause, i, errs))
  {
    hide SortedKeys, BothAbove, Restoring, Ended, AtRecheck;
    EndedDirs(cfg, apply, b, h, snap, cause, errs);
    RecheckDirs(cfg, apply, b, h, snap, cause, 0, map[]);
  }

  lemma FileDirs(cfg: Paths, apply: bool, b: set<string>, h: set<string>, snap: Snapshot, cause: Cause, j: nat, errs: seq<Failure>)
    requires SnapshotTest(cfg, snap) && Restoring(cfg, b, h, cause.failure) && (apply ==> cause.failure.Some?)
    ensures DirsInv(cfg, apply, b, h, AtRestoreFile(snap, cause, j, errs))
  {
    hide SortedKeys, BothAbove, Restoring, AtRestoreKey, SnapshotTest;
    KeyDirs(cfg, apply, b, h, snap, cause, 0, errs);
  }

  lemma RestoreDirs(cfg: Paths, apply: bool, b: set<string>, h: set<string>, snap: Snapshot, cause: Cause)
    requires Restoring(cfg, b, h, cause.failure) && (apply ==> cause.failure.Some?)
    ensures DirsInv(cfg, apply, b, h, AtRestore(cfg, snap, cause))
  {
    hide SortedKeys, BothAbove, Restoring, AtRestoreFile, SnapshotTest, Ended;
    if SnapshotTest(cfg, snap) {
      FileDirs(cfg, apply, b, h, snap, cause, 0, []);
    } else {
      EndedDirs(cfg, apply, b, h, snap, cause, [UnsafeSnapshot]);
    }
  }

  lemma VerifyDirs(cfg: Paths, b: set<string>, plan: Plan, snap: Snapshot, i: nat, actual: Values)
    ensures DirsInv(cfg, true, b, b + BothAbove(cfg), AtVerify(cfg, plan, snap, i, actual))
  {
    hide SortedKeys, BothAbove, AtRestore, Compared;
    RestoreDirs(cfg, true, b, b + BothAbove(cfg), snap,
                Cause(Some(VerifyMismatch), Compared(actual, plan.recommendation.sysctls)));
  }

  // ---------- one step keeps it ----------

  lemma CaptureStepDirs(cfg: Paths, apply: bool, b: set<string>, h: State, p: Proc, a: Answer)
    requires InRange(p) && DirsInv(cfg, apply, b, h.dirs, p)
    requires p.Modprobe? || p.CheckBbr? || p.CaptureKey? || p.CaptureOwned?
    ensures DirsInv(cfg, apply, b, Effect(cfg, h, p, a).dirs, NextCapture(cfg, h, p, a))
  {
    hide SortedKeys, BothAbove, Fields, Normalize, FormatId, CaptureOne;
  }

  lemma CommitStepDirs(cfg: Paths, apply: bool, b: set<string>, h: State, p: Proc, a: Answer)
    requires InRange(p) && DirsInv(cfg, apply, b, h.dirs, p)
    requires p.StoreSnapshot? || p.StoreLatest? || p.WriteSysctl? || p.WriteModules? || p.Load?
    ensures DirsInv(cfg, apply, b, Effect(cfg, h, p, a).dirs, NextCommit(cfg, h, p, a))
  {
    hide SortedKeys, AtRestore, AtVerify, Above, AssignedKeys, Leave, SaveSnapshot, SaveLatest, LoadConfig, PutFile;
    DirsOfStep(cfg, h, p, a);
    var dirs := Effect(cfg, h, p, a).dirs;
    if p.WriteSysctl? && !a.ok {
      ReachIsAbove(cfg.sysctlFile, a);
      RestoreDirs(cfg, apply, b, dirs, p.snap, Because(WriteFailed(cfg.sysctlFile)));
    } else if p.WriteModules? && !a.ok {
      ReachIsAbove(cfg.modulesFile, a);
      RestoreDirs(cfg, apply, b, dirs, p.snap, Because(WriteFailed(cfg.modulesFile)));
    } else if p.WriteModules? {
      assert dirs == b + BothAbove(cfg);
    } else if p.Load? && a.ok {
      VerifyDirs(cfg, b, p.plan, p.snap, 0, map[]);
    } else if p.Load? {
      RestoreDirs(cfg, apply, b, dirs, p.snap, Because(LoadFailed));
    }
  }

  lemma VerifyStepDirs(cfg: Paths, apply: bool, b: set<string>, h: State, p: Proc, a: Answer)
    requires InRange(p) && DirsInv(cfg, apply, b, h.dirs, p) && p.VerifyKey?
    ensures DirsInv(cfg, apply, b, Effect(cfg, h, p, a).dirs, NextCommit(cfg, h, p, a))
  {
    hide SortedKeys, AtRestore, AtVerify, BothAbove, Normalize;
    var key := KeysOf(p.plan)[p.i];
    var read := ReadSysctl(h, key, a);
    if read.Some? {
      VerifyDirs(cfg, b, p.plan, p.snap, p.i + 1, p.actual[key := Normalize(read.value)]);
    } else {
      RestoreDirs(cfg, apply, b, h.dirs, p.snap, Because(ReadFailed(key)));
    }
  }

  lemma ReadStepDirs(cfg: Paths, apply: bool, b: set<string>, h: State, p: Proc, a: Answer)
    requires InRange(p) && DirsInv(cfg, apply, b, h.dirs, p) && (p.ReadLatest? || p.ReadStored?)
    ensures DirsInv(cfg, apply, b, Effect(cfg, h, p, a).dirs, NextRead(cfg, h, p, a))
  {
    hide AtRestore, BothAbove, TrimEdges, MatchesPattern, SnapshotTest, RestoreOwned, AssignSysctl, LoadConfig, PutFile,
         SaveSnapshot, SaveLatest, SortedKeys;
    if p.ReadStored? && p.id in h.store { RestoreDirs(cfg, apply, b, h.dirs, h.store[p.id], REQUESTED); }
  }

  lemma FileStepDirs(cfg: Paths, apply: bool, b: set<string>, h: State, p: Proc, a: Answer)
    requires InRange(p) && DirsInv(cfg, apply, b, h.dirs, p) && p.RestoreFile?
    ensures DirsInv(cfg, apply, b, Effect(cfg, h, p, a).dirs, NextRestore(h, p, a))
  {
    hide SortedKeys, AtRestoreFile, AllowlistTest, Above, RestoreOwned;
    DirsOfStep(cfg, h, p, a);
    var dirs := Effect(cfg, h, p, a).dirs;
    var path := SortedKeys(p.snap.files.Keys)[p.j];
    assert path in p.snap.files;
    ReachIsAbove(p.snap.files[path].path, a);
    assert dirs <= h.dirs + BothAbove(cfg);
    FileDirs(cfg, apply, b, dirs, p.snap, p.cause, p.j + 1, Note(p.errs, a.ok, path));
  }

  lemma KeyStepDirs(cfg: Paths, apply: bool, b: set<string>, h: State, p: Proc, a: Answer)
    requires InRange(p) && DirsInv(cfg, apply, b, h.dirs, p) && p.RestoreKey?
    ensures DirsInv(cfg, apply, b, Effect(cfg, h, p, a).dirs, NextRestore(h, p, a))
  {
    hide SortedKeys, AtRestoreKey, BothAbove, Restoring;
    KeyDirs(cfg, apply, b, h.dirs, p.snap, p.cause, p.i + 1, Note(p.errs, a.ok, SortedKeys(p.snap.sysctls.Keys)[p.i]));
  }

  lemma RecheckStepDirs(cfg: Paths, apply: bool, b: set<string>, h: State, p: Proc, a: Answer)
    requires InRange(p) && DirsInv(cfg, apply, b, h.dirs, p) && p.RecheckKey?
    ensures DirsInv(cfg, apply, b, Effect(cfg, h, p, a).dirs, NextRestore(h, p, a))
  {
    hide SortedKeys, AtRecheck, AtRestoreFile, AtRestoreKey, Ended, Normalize, BothAbove, Restoring, Ends, SnapshotTest,
         RestoreOwned, AssignSysctl, LoadConfig, PutFile, SaveSnapshot, SaveLatest;
    var key := SortedKeys(p.snap.sysctls.Keys)[p.i];
    var read := ReadSysctl(h, key, a);
    if read.Some? {
      RecheckDirs(cfg, apply, b, h.dirs, p.snap, p.cause, p.i + 1, p.actual[key := Normalize(read.value)]);
    } else {
      EndedDirs(cfg, apply, b, h.dirs, p.snap, p.cause, [ReadFailed(key)]);
    }
  }

  lemma StepKeepsDirs(cfg: Paths, apply: bool, b: set<string>, h: State, p: Proc, a: Answer)
    requires InRange(p) && DirsInv(cfg, apply, b, h.dirs, p)
    ensures DirsInv(cfg, apply, b, Step(cfg, h, p, a).host.dirs, Step(cfg, h, p, a).proc)
  {
    hide InRange, DirsInv, Effect, NextCapture, NextCommit, NextRead, NextRestore;
    match p
    case Modprobe(_) => CaptureStepDirs(cfg, apply, b, h, p, a);
    case CheckBbr(_) => CaptureStepDirs(cfg, apply, b, h, p, a);
    case CaptureKey(_, _, _, _) => CaptureStepDirs(cfg, apply, b, h, p, a);
    case CaptureOwned(_, _, _, _, _) => CaptureStepDirs(cfg, apply, b, h, p, a);
    case VerifyKey(_, _, _, _) => VerifyStepDirs(cfg, apply, b, h, p, a);
    case ReadLatest => ReadStepDirs(cfg, apply, b, h, p, a);
    case ReadStored(_) => ReadStepDirs(cfg, apply, b, h, p, a);
    case RestoreFile(_, _, _, _) => FileStepDirs(cfg, apply, b, h, p, a);
    case RestoreKey(_, _, _, _) => KeyStepDirs(cfg, apply, b, h, p, a);
    case RecheckKey(_, _, _, _) => RecheckStepDirs(cfg, apply, b, h, p, a);
    case Finished(_) => FinishedStep(cfg, h, p, a);
    case _ => CommitStepDirs(cfg, apply, b, h, p, a);
  }

  lemma FirstDirs(cfg: Paths, op: Op, b: set<string>)
    ensures InRange(First(op)) && DirsInv(cfg, op.ApplyOp?, b, b, First(op))
  {
    hide MatchesPattern, BothAbove;
  }

  lemma {:induction false} ExecKeepsDirs(cfg: Paths, op: Op, b: State, world: nat -> Answer, t: nat, n: nat)
    ensures InRange(First(op))
    ensures var m := Exec(cfg, b, First(op), world, t, n); DirsInv(cfg, op.ApplyOp?, b.dirs, m.host.dirs, m.proc)
  {
    hide DirsInv, InRange, Step, First;
    FirstDirs(cfg, op, b.dirs);
    if n > 0 {
      ExecKeepsDirs(cfg, op, b, world, t, n - 1);
      var m := Exec(cfg, b, First(op), world, t, n - 1);
      StepKeepsDirs(cfg, op.ApplyOp?, b.dirs, m.host, m.proc, world(t + n - 1));
    }
  }

  // A finished section has exactly the directories that its writes came to besides those
  // that were there.
  lemma SectionCame(cfg: Paths, op: Op, b: State, world: nat -> Answer, t: nat, h: State, report: Report, u: nat)
    requires InRange(First(op)) && Reaches(cfg, b, First(op), world, t, Moment(h, Finished(report)), u)
    ensures h.dirs == b.dirs + ReachOfRun(cfg, b, First(op), world, t, u - t)
    ensures Ends(cfg, op.ApplyOp?, b.dirs, h.dirs, report)
  {
    hide InRange, First, Exec, BothAbove, Ends, ReachOfRun;
    DirsOfRun(cfg, b, First(op), world, t, u - t);
    SectionDirectories(cfg, op, b, world, t, u - t);
  }

  // A finished section: directories were only added, and only above the two files; an Apply
  // that wrote both has all of those, so it added none exactly if they had been there; one
  // that failed before writing added none.
  lemma SectionDirectories(cfg: Paths, op: Op, b: State, world: nat -> Answer, t: nat, n: nat)
    requires InRange(First(op)) && Exec(cfg, b, First(op), world, t, n).proc.Finished?
    ensures var m := Exec(cfg, b, First(op), world, t, n);
            && Ends(cfg, op.ApplyOp?, b.dirs, m.host.dirs, m.proc.report)
            && (m.proc.report.failure.Some? && AfterWrites(m.proc.report.failure.value) ==>
                  (m.host.dirs == b.dirs <==> BothAbove(cfg) <= b.dirs))
  {
    hide InRange, First, Exec, BothAbove;
    ExecKeepsDirs(cfg, op, b, world, t, n);
  }
}
