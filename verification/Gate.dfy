/**
 The way into a section: what is tested before anything is captured, and the clock that
 names the snapshot.
 */
module Gate {
  import opened Wrappers
  import opened Text
  import opened Sorting
  import opened Config
  import opened SnapshotId
  import opened HostState
  import opened Engine

  // ---------- bbr must be on offer ----------

  // The module loads, the available congestion controls can be read, and bbr is one of them.
  predicate BbrOffered(world: nat -> Answer, t: nat) {
    world(t).ok && world(t + 1).ok && "bbr" in Fields(world(t).text)
  }

  // An Apply turned away at the gate.
  function Turned(world: nat -> Answer, t: nat): Report {
    Report("", UNVERIFIED, Some(if world(t).ok then BbrMissing else ModuleLoadFailed), [])
  }

  lemma FirstTwoSteps(cfg: Paths, b: State, plan: Plan, world: nat -> Answer, t: nat)
    ensures InRange(Modprobe(plan))
    ensures Exec(cfg, b, Modprobe(plan), world, t, 0) == Moment(b, Modprobe(plan))
    ensures Exec(cfg, b, Modprobe(plan), world, t, 1) ==
            Moment(b.(available := world(t).text), if world(t).ok then CheckBbr(plan) else Failed("", ModuleLoadFailed))
    ensures Exec(cfg, b, Modprobe(plan), world, t, 2) ==
            Moment(b.(available := world(t).text),
                   if BbrOffered(world, t) then AtCaptureKey(plan, world(t + 1).stamp, 0, map[]) else Finished(Turned(world, t)))
  {
    hide AtCaptureKey, Fields;
    assert Exec(cfg, b, Modprobe(plan), world, t, 0) == Moment(b, Modprobe(plan));
    assert Exec(cfg, b, Modprobe(plan), world, t, 1) ==
           Moment(b.(available := world(t).text), if world(t).ok then CheckBbr(plan) else Failed("", ModuleLoadFailed));
  }

  // Whatever else the world answers: without bbr on offer an Apply never captures, stores or
  // writes anything, and all it ever reports is which of the two tests failed.
  lemma NothingWithoutBbr(cfg: Paths, b: State, plan: Plan, world: nat -> Answer, t: nat, n: nat)
    requires !(world(t).ok && world(t + 1).ok && "bbr" in Fields(world(t).text))
    ensures InRange(Modprobe(plan))
    ensures var m := Exec(cfg, b, Modprobe(plan), world, t, n);
            && m.host == b.(available := m.host.available)
            && (n >= 2 ==> m.proc.Finished?)
            && (m.proc.Finished? ==>
                  m.proc.report == Report("", UNVERIFIED, Some(if world(t).ok then BbrMissing else ModuleLoadFailed), []))
  {
    hide Exec, Fields, AtCaptureKey, InRange;
    FirstTwoSteps(cfg, b, plan, world, t);
    if n > 2 { FinishedStays(cfg, b, Modprobe(plan), world, t, 2, n); }
  }

  // With bbr on offer it goes on to capturing.
  lemma BbrLetsIn(cfg: Paths, b: State, plan: Plan, world: nat -> Answer, t: nat)
    requires world(t).ok && world(t + 1).ok && "bbr" in Fields(world(t).text)
    ensures InRange(Modprobe(plan)) && !Exec(cfg, b, Modprobe(plan), world, t, 2).proc.Finished?
  {
    hide Exec, Fields, InRange, SortedKeys;
    FirstTwoSteps(cfg, b, plan, world, t);
  }

  // ---------- the clock ----------

  // Whatever a process past the gate carries was stamped at that time.
  ghost predicate Clocked(p: Proc, now: Stamp)
    requires InRange(p)
  {
    match p
    case Modprobe(_) | CheckBbr(_) | ReadLatest | ReadStored(_) => false
    case CaptureKey(_, stamp, _, _) => stamp == now
    case CaptureOwned(_, stamp, _, _, _) => stamp == now
    case Finished(report) => report.snapshotId == "" || report.snapshotId == FormatId(now)
    case _ => p.snap.id == FormatId(now)
  }

  lemma EndedClock(snap: Snapshot, cause: Cause, errs: seq<Failure>, now: Stamp)
    requires snap.id == FormatId(now)
    ensures InRange(Ended(snap, cause, errs)) && Clocked(Ended(snap, cause, errs), now)
  {
    hide FormatId;
  }

  lemma RestoringClock(cfg: Paths, snap: Snapshot, cause: Cause, j: nat, errs: seq<Failure>, actual: Values, now: Stamp)
    requires snap.id == FormatId(now)
    ensures Clocked(AtRestore(cfg, snap, cause), now) && Clocked(AtRestoreFile(snap, cause, j, errs), now)
    ensures Clocked(AtRestoreKey(snap, cause, j, errs), now) && Clocked(AtRecheck(snap, cause, j, actual), now)
  {
    hide FormatId, SortedKeys, SnapshotTest, Compared;
  }

  lemma VerifyClock(cfg: Paths, plan: Plan, snap: Snapshot, i: nat, actual: Values, now: Stamp)
    requires snap.id == FormatId(now)
    ensures Clocked(AtVerify(cfg, plan, snap, i, actual), now)
  {
    hide FormatId, SortedKeys, Compared, AtRestore;
    RestoringClock(cfg, snap, Cause(Some(VerifyMismatch), Compared(actual, plan.recommendation.sysctls)), 0, [], map[], now);
  }

  lemma CaptureClock(cfg: Paths, h: State, p: Proc, a: Answer, now: Stamp)
    requires InRange(p) && Clocked(p, now) && (p.CaptureKey? || p.CaptureOwned?)
    ensures Clocked(NextCapture(cfg, h, p, a), now)
  {
    hide FormatId, SortedKeys, Normalize, CaptureOne;
  }

  lemma CommitClock(cfg: Paths, h: State, p: Proc, a: Answer, now: Stamp)
    requires InRange(p) && Clocked(p, now)
    requires p.StoreSnapshot? || p.StoreLatest? || p.WriteSysctl? || p.WriteModules? || p.Load? || p.VerifyKey?
    ensures Clocked(NextCommit(cfg, h, p, a), now)
  {
    hide FormatId, SortedKeys, Normalize, AtVerify, AtRestore;
    match p
    case WriteSysctl(_, snap) => RestoringClock(cfg, snap, Because(WriteFailed(cfg.sysctlFile)), 0, [], map[], now);
    case WriteModules(_, snap) => RestoringClock(cfg, snap, Because(WriteFailed(cfg.modulesFile)), 0, [], map[], now);
    case Load(plan, snap) =>
      RestoringClock(cfg, snap, Because(LoadFailed), 0, [], map[], now);
      VerifyClock(cfg, plan, snap, 0, map[], now);
    case VerifyKey(plan, snap, i, actual) =>
      var key := KeysOf(plan)[i];
      var read := ReadSysctl(h, key, a);
      RestoringClock(cfg, snap, Because(ReadFailed(key)), 0, [], map[], now);
      if read.Some? { VerifyClock(cfg, plan, snap, i + 1, actual[key := Normalize(read.value)], now); }
    case _ =>
  }

  lemma RestoreClock(cfg: Paths, h: State, p: Proc, a: Answer, now: Stamp)
    requires InRange(p) && Clocked(p, now) && (p.RestoreFile? || p.RestoreKey? || p.RecheckKey?)
    ensures Clocked(NextRestore(h, p, a), now)
  {
    hide FormatId, SortedKeys, Normalize, AtRestoreFile, AtRestoreKey, AtRecheck, Ended, SnapshotTest;
    match p
    case RestoreFile(snap, cause, j, errs) =>
      RestoringClock(cfg, snap, cause, j + 1, Note(errs, a.ok, SortedKeys(snap.files.Keys)[j]), map[], now);
    case RestoreKey(snap, cause, i, errs) =>
      RestoringClock(cfg, snap, cause, i + 1, Note(errs, a.ok, SortedKeys(snap.sysctls.Keys)[i]), map[], now);
    case RecheckKey(snap, cause, i, actual) =>
      var key := SortedKeys(snap.sysctls.Keys)[i];
      var read := ReadSysctl(h, key, a);
      EndedClock(snap, cause, [ReadFailed(key)], now);
      if read.Some? { RestoringClock(cfg, snap, cause, i + 1, [], actual[key := Normalize(read.value)], now); }
  }

  lemma StepKeepsClock(cfg: Paths, h: State, p: Proc, a: Answer, now: Stamp)
    requires InRange(p) && Clocked(p, now)
    ensures Clocked(Step(cfg, h, p, a).proc, now)
  {
    hide Effect, NextCapture, NextCommit, NextRead, NextRestore, FormatId, InRange;
    if p.CaptureKey? || p.CaptureOwned? {
      CaptureClock(cfg, h, p, a, now);
    } else if p.RestoreFile? || p.RestoreKey? || p.RecheckKey? {
      RestoreClock(cfg, h, p, a, now);
    } else if !p.Finished? {
      CommitClock(cfg, h, p, a, now);
    }
  }

  // Every snapshot of an Apply and every identifier it reports are named after the clock
  // that was read when bbr had been found.
  lemma {:induction false} SnapshotNamesClock(cfg: Paths, b: State, plan: Plan, world: nat -> Answer, t: nat, n: nat)
    ensures InRange(Modprobe(plan))
    ensures var m := Exec(cfg, b, Modprobe(plan), world, t, n);
            && (m.proc.StoreSnapshot? ==> m.proc.snap.id == FormatId(world(t + 1).stamp))
            && (m.proc.Finished? && m.proc.report.snapshotId != "" ==> m.proc.report.snapshotId == FormatId(world(t + 1).stamp))
    ensures n >= 2 ==> Clocked(Exec(cfg, b, Modprobe(plan), world, t, n).proc, world(t + 1).stamp)
  {
    hide Step, FormatId, InRange, Fields, SortedKeys;
    FirstTwoSteps(cfg, b, plan, world, t);
    if n > 2 {
      SnapshotNamesClock(cfg, b, plan, world, t, n - 1);
      var m := Exec(cfg, b, Modprobe(plan), world, t, n - 1);
      StepKeepsClock(cfg, m.host, m.proc, world(t + n - 1), world(t + 1).stamp);
    }
  }

  // ---------- no failure goes unreported ----------

  // Nothing has gone wrong so far.
  predicate Clean(p: Proc) {
    match p
    case RestoreFile(_, cause, _, errs) => cause.failure.None? && errs == []
    case RestoreKey(_, cause, _, errs) => cause.failure.None? && errs == []
    case RecheckKey(_, cause, _, _) => cause.failure.None?
    case Finished(report) => report.NoError()
    case _ => true
  }

  lemma CleanRestoring(cfg: Paths, snap: Snapshot, cause: Cause, j: nat, errs: seq<Failure>, actual: Values)
    ensures Clean(AtRestore(cfg, snap, cause)) ==> cause.failure.None?
    ensures Clean(AtRestoreFile(snap, cause, j, errs)) ==> cause.failure.None? && errs == []
    ensures Clean(AtRestoreKey(snap, cause, j, errs)) ==> cause.failure.None? && errs == []
    ensures Clean(AtRecheck(snap, cause, j, actual)) ==> cause.failure.None?
    ensures Clean(Ended(snap, cause, errs)) ==> cause.failure.None? && errs == []
  {
    hide SortedKeys, SnapshotTest, Compared;
  }

  lemma CleanCapture(cfg: Paths, h: State, p: Proc, a: Answer)
    requires InRange(p) && (p.Modprobe? || p.CheckBbr? || p.CaptureKey? || p.CaptureOwned?) && Clean(NextCapture(cfg, h, p, a))
    ensures a.ok
  {
    hide SortedKeys, Fields, Normalize, FormatId;
  }

  lemma CleanCommit(cfg: Paths, h: State, p: Proc, a: Answer)
    requires InRange(p)
    requires p.StoreSnapshot? || p.StoreLatest? || p.WriteSysctl? || p.WriteModules? || p.Load? || p.VerifyKey?
    requires Clean(NextCommit(cfg, h, p, a))
    ensures a.ok
  {
    hide SortedKeys, Normalize, AtRestore, AtVerify;
    if !a.ok && !p.StoreSnapshot? && !p.StoreLatest? {
      CleanRestoring(cfg, p.snap, Because(WriteFailed(cfg.sysctlFile)), 0, [], map[]);
      CleanRestoring(cfg, p.snap, Because(WriteFailed(cfg.modulesFile)), 0, [], map[]);
      CleanRestoring(cfg, p.snap, Because(LoadFailed), 0, [], map[]);
      if p.VerifyKey? { CleanRestoring(cfg, p.snap, Because(ReadFailed(KeysOf(p.plan)[p.i])), 0, [], map[]); }
    }
  }

  lemma CleanRestore(cfg: Paths, h: State, p: Proc, a: Answer)
    requires InRange(p) && (p.RestoreFile? || p.RestoreKey? || p.RecheckKey?) && Clean(NextRestore(h, p, a))
    ensures a.ok && Clean(p)
  {
    hide SortedKeys, Normalize, AtRestoreFile, AtRestoreKey, AtRecheck, Ended;
    match p
    case RestoreFile(snap, cause, j, errs) =>
      CleanRestoring(cfg, snap, cause, j + 1, Note(errs, a.ok, SortedKeys(snap.files.Keys)[j]), map[]);
    case RestoreKey(snap, cause, i, errs) =>
      CleanRestoring(cfg, snap, cause, i + 1, Note(errs, a.ok, SortedKeys(snap.sysctls.Keys)[i]), map[]);
    case RecheckKey(snap, cause, i, actual) =>
      var key := SortedKeys(snap.sysctls.Keys)[i];
      var read := ReadSysctl(h, key, a);
      CleanRestoring(cfg, snap, cause, 0, [ReadFailed(key)], map[]);
      if read.Some? { CleanRestoring(cfg, snap, cause, i + 1, [], actual[key := Normalize(read.value)]); }
  }

  lemma CleanRead(cfg: Paths, h: State, p: Proc, a: Answer)
    requires (p.ReadLatest? || p.ReadStored?) && Clean(NextRead(cfg, h, p, a))
    ensures a.ok
  {
    hide AtRestore, TrimEdges, MatchesPattern;
  }

  lemma CleanStep(cfg: Paths, h: State, p: Proc, a: Answer)
    requires InRange(p) && Clean(Step(cfg, h, p, a).proc)
    ensures Clean(p) && (p.Finished? || a.ok)
  {
    hide Effect, NextCapture, NextCommit, NextRead, NextRestore, InRange;
    if p.Modprobe? || p.CheckBbr? || p.CaptureKey? || p.CaptureOwned? {
      CleanCapture(cfg, h, p, a);
    } else if p.RestoreFile? || p.RestoreKey? || p.RecheckKey? {
      CleanRestore(cfg, h, p, a);
    } else if p.ReadLatest? || p.ReadStored? {
      CleanRead(cfg, h, p, a);
    } else if !p.Finished? {
      CleanCommit(cfg, h, p, a);
    }
  }

  // An Apply or Rollback reports no error only if every single operation up to its end succeeded.
  lemma {:induction false} NoErrorMeansNoFailure(cfg: Paths, h: State, p: Proc, world: nat -> Answer, t: nat, n: nat, k: nat)
    requires InRange(p) && k < n && Clean(Exec(cfg, h, p, world, t, n).proc)
    ensures Exec(cfg, h, p, world, t, k).proc.Finished? || world(t + k).ok
  {
    hide Step, Clean, InRange;
    var m := Exec(cfg, h, p, world, t, n - 1);
    CleanStep(cfg, m.host, m.proc, world(t + n - 1));
    if k < n - 1 { NoErrorMeansNoFailure(cfg, h, p, world, t, n - 1, k); }
  }

  // For a finished section: if its report has no error, no operation before the end failed.
  lemma ErrorFreeSection(cfg: Paths, op: Op, b: State, world: nat -> Answer, t: nat, n: nat)
    requires InRange(First(op))
    requires var m := Exec(cfg, b, First(op), world, t, n); m.proc.Finished? && m.proc.report.NoError()
    ensures forall k: nat | k < n && !Exec(cfg, b, First(op), world, t, k).proc.Finished? :: world(t + k).ok
  {
    hide Exec, InRange, First;
    forall k: nat | k < n && !Exec(cfg, b, First(op), world, t, k).proc.Finished? ensures world(t + k).ok {
      NoErrorMeansNoFailure(cfg, b, First(op), world, t, n, k);
    }
  }
}
