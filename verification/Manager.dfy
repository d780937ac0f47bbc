/**
 The host as mutable state, and the manager's Apply and Rollback as they run on it:
 loops, early returns and a lock.  Each is proved to be a run of the engine, so
 everything proved about every run of the engine holds for the methods.
 */
module Manage {
  import opened Wrappers
  import opened Text
  import opened Sorting
  import opened Config
  import opened SnapshotId
  import opened HostState
  import opened Engine
  import opened EngineProofs
  import opened Recovery
  import opened Directories
  import opened Gate

  // What the tool acts on.  Every command and file operation takes the next answer
  // of an arbitrary world.
  class Host {
    var sysctls: Values
    var available: string
    var files: map<string, Node>
    var dirs: set<string>
    var strays: map<string, Node>
    var store: map<string, Snapshot>
    var latest: Option<string>
    var locked: bool
    var automationLocked: bool
    var commands: seq<string>
    var tick: nat
    const world: nat -> Answer

    ghost function View(): State
      reads `sysctls, `available, `files, `dirs, `strays, `store, `latest
    {
      State(sysctls, available, files, dirs, strays, store, latest)
    }

    constructor (start: State, world: nat -> Answer)
      ensures View() == start && this.world == world && tick == 0 && !locked && !automationLocked && commands == []
    {
      sysctls, available, files, dirs, strays := start.sysctls, start.available, start.files, start.dirs, start.strays;
      store, latest := start.store, start.latest;
      locked, automationLocked, tick, commands := false, false, 0, [];
      this.world := world;
    }

    method Ask() returns (a: Answer)
      modifies `tick
      ensures a == world(old(tick)) && tick == old(tick) + 1
    {
      a := world(tick);
      tick := tick + 1;
    }

    method Lock() returns (ok: bool)
      modifies `tick, `locked
      ensures tick == old(tick) + 1
      ensures ok <==> world(old(tick)).ok && !old(locked)
      ensures locked == (old(locked) || ok)
    {
      var a := Ask();
      ok := a.ok && !locked;
      if ok { locked := true; }
    }

    method Unlock()
      modifies `locked
      ensures !locked
    {
      locked := false;
    }

    method LoadModule() returns (ok: bool)
      modifies `tick, `available
      ensures tick == old(tick) + 1 && ok == world(old(tick)).ok && available == world(old(tick)).text
    {
      var a := Ask();
      available := a.text;
      ok := a.ok;
    }

    // The command's output and the clock right after it.
    method ReadAvailable() returns (r: Option<string>, now: Stamp)
      modifies `tick
      ensures tick == old(tick) + 1 && now == world(old(tick)).stamp
      ensures r == if world(old(tick)).ok then Some(available) else None
    {
      var a := Ask();
      now := a.stamp;
      r := if a.ok then Some(available) else None;
    }

    method SysctlRead(key: string) returns (r: Option<string>)
      modifies `tick
      ensures tick == old(tick) + 1 && r == ReadSysctl(View(), key, world(old(tick)))
    {
      var a := Ask();
      r := if a.ok && key in sysctls then Some(sysctls[key]) else None;
    }

    method SysctlAssign(key: string, value: string) returns (ok: bool)
      modifies `tick, `sysctls
      ensures tick == old(tick) + 1 && ok == world(old(tick)).ok
      ensures View() == AssignSysctl(old(View()), key, world(old(tick)))
    {
      var a := Ask();
      if key in a.effect { sysctls := sysctls[key := a.effect[key]]; }
      ok := a.ok;
    }

    method SysctlLoad(path: string) returns (ok: bool)
      modifies `tick, `sysctls
      ensures tick == old(tick) + 1 && ok == world(old(tick)).ok
      ensures View() == LoadConfig(old(View()), path, world(old(tick)))
    {
      hide AssignedKeys;
      var a := Ask();
      if path in files && ReadThrough(files[path]).Some? {
        var keys := AssignedKeys(ReadThrough(files[path]).value);
        sysctls := sysctls + map key | key in a.effect && key in keys :: a.effect[key];
      }
      ok := a.ok;
    }

    method AtomicWrite(path: string, data: string, mode: nat) returns (ok: bool)
      modifies `tick, `files, `dirs, `strays
      ensures tick == old(tick) + 1 && ok == world(old(tick)).ok
      ensures View() == PutFile(old(View()), path, data, mode, world(old(tick)))
    {
      var a := Ask();
      ok := a.ok;
      if ok { files := files[path := Regular(mode, data)]; }
      dirs := dirs + Reach(path, a);
      strays := Leave(strays, a);
    }

    method Remove(path: string) returns (ok: bool)
      modifies `tick, `files
      ensures tick == old(tick) + 1 && ok == world(old(tick)).ok
      ensures View() == DropFile(old(View()), path, world(old(tick)))
    {
      var a := Ask();
      ok := a.ok;
      if ok { files := files - {path}; }
    }

    method CaptureFile(path: string) returns (r: Option<FileSnapshot>)
      modifies `tick
      ensures tick == old(tick) + 1 && r == CaptureOne(View(), path, world(old(tick)))
    {
      var a := Ask();
      if !a.ok { return None; }
      if path !in files { return Some(FileSnapshot(path, false, 0, "")); }
      match files[path]
      case Regular(mode, data) => return Some(FileSnapshot(path, true, Perm(mode), data));
      case _ => return None;
    }

    method RestoreFile(file: FileSnapshot) returns (ok: bool)
      modifies `tick, `files, `dirs, `strays
      ensures tick == old(tick) + 1 && ok == world(old(tick)).ok
      ensures View() == RestoreOwned(old(View()), file, world(old(tick)))
    {
      if !file.present {
        ok := Remove(file.path);
      } else {
        ok := AtomicWrite(file.path, file.data, Chmod(file.mode));
      }
    }

    method WriteRecord(snap: Snapshot) returns (ok: bool)
      modifies `tick, `store, `strays
      ensures tick == old(tick) + 1 && ok == world(old(tick)).ok
      ensures View() == SaveSnapshot(old(View()), snap, world(old(tick)))
    {
      var a := Ask();
      ok := a.ok;
      if ok { store := store[snap.id := snap]; }
      strays := Leave(strays, a);
    }

    method WritePointer(id: string) returns (ok: bool)
      modifies `tick, `latest, `strays
      ensures tick == old(tick) + 1 && ok == world(old(tick)).ok
      ensures View() == SaveLatest(old(View()), id, world(old(tick)))
    {
      var a := Ask();
      ok := a.ok;
      if ok { latest := Some(id + "\n"); }
      strays := Leave(strays, a);
    }

    method ReadPointer() returns (r: Option<string>)
      modifies `tick
      ensures tick == old(tick) + 1 && r == if world(old(tick)).ok then latest else None
    {
      var a := Ask();
      r := if a.ok then latest else None;
    }

    method ReadRecord(id: string) returns (r: Option<Snapshot>)
      modifies `tick
      ensures tick == old(tick) + 1
      ensures r == if world(old(tick)).ok && id in store then Some(store[id]) else None
    {
      var a := Ask();
      r := if a.ok && id in store then Some(store[id]) else None;
    }
  }

  class Manager {
    const host: Host
    const paths: Paths
    const initialized: bool
    const euid: int

    constructor (host: Host, paths: Paths, initialized: bool, euid: int)
      ensures this.host == host && this.paths == paths && this.initialized == initialized && this.euid == euid
    {
      this.host, this.paths, this.initialized, this.euid := host, paths, initialized, euid;
    }

    // requireReady
    predicate Ready() {
      initialized && paths.sysctlFile != "" && paths.modulesFile != "" && paths.stateDir != "" && paths.lockFile != ""
    }

    // captureSnapshot: reads key by key, then the two files; changes nothing.
    method CaptureSnapshot(ghost plan: Plan, keys: seq<string>, now: Stamp) returns (r: Result<Snapshot, Failure>)
      requires keys == KeysOf(plan)
      modifies host`tick
      ensures Reaches(paths, host.View(), AtCaptureKey(plan, now, 0, map[]), host.world, old(host.tick),
                      Moment(host.View(), match r case Ok(snap) => StoreSnapshot(plan, snap) case Err(f) => Failed("", f)),
                      host.tick)
    {
      hide Exec, Step, SortedKeys, AtCaptureKey, FormatId, Normalize, CaptureOne, InRange, Reaches;
      ghost var h, t, p0 := host.View(), host.tick, AtCaptureKey(plan, now, 0, map[]);
      ReachesStart(paths, h, p0, host.world, t);
      var values: Values := map[];
      for i := 0 to |keys|
        invariant host.View() == h
        invariant Reaches(paths, h, p0, host.world, t, Moment(h, AtCaptureKey(plan, now, i, values)), host.tick)
      {
        ReachesNext(paths, h, p0, host.world, t, Moment(h, AtCaptureKey(plan, now, i, values)), host.tick);
        CaptureKeyOperation(paths, h, plan, now, i, values, host.world(host.tick));
        var value := host.SysctlRead(keys[i]);
        if value.None? { return Err(CaptureFailed(keys[i])); }
        values := values[keys[i] := Normalize(value.value)];
      }
      assert AtCaptureKey(plan, now, |keys|, values) == AtCaptureOwned(plan, now, values, 0, map[]) by { KeysCaptured(plan, now, values); }
      var files: map<string, FileSnapshot> := map[];
      var owned := [paths.sysctlFile, paths.modulesFile];
      for j := 0 to 2
        invariant host.View() == h
        invariant Reaches(paths, h, p0, host.world, t, Moment(h, AtCaptureOwned(plan, now, values, j, files)), host.tick)
      {
        CaptureOwnedOperation(paths, h, plan, now, values, j, files, host.world(host.tick));
        ReachesNext(paths, h, p0, host.world, t, Moment(h, AtCaptureOwned(plan, now, values, j, files)), host.tick);
        var file := host.CaptureFile(owned[j]);
        if file.None? { return Err(CaptureFailed(owned[j])); }
        files := files[owned[j] := file.value];
      }
      return Ok(Snapshot(SNAPSHOT_VERSION, FormatId(now), values, files));
    }

    // verifyExpected: reads every expected key and compares.
    method VerifyExpected(ghost reading: Reading, expected: Values) returns (r: Result<Verification, Failure>)
      requires expected == reading.Expected()
      modifies host`tick
      ensures Reaches(paths, host.View(), AtReading(paths, reading, 0, map[]), host.world, old(host.tick),
                      Moment(host.View(), AfterReading(paths, reading, r)), host.tick)
    {
      hide Exec, Step, SortedKeys, Normalize, InRange, Reaches, AtReading, AfterReading, Compared, AtRestore;
      ghost var h, t, p0 := host.View(), host.tick, AtReading(paths, reading, 0, map[]);
      ReachesStart(paths, h, p0, host.world, t);
      var keys := CollectSortedKeys(expected);
      var actual: Values := map[];
      for i := 0 to |keys|
        invariant host.View() == h
        invariant Reaches(paths, h, p0, host.world, t, Moment(h, AtReading(paths, reading, i, actual)), host.tick)
      {
        ReachesNext(paths, h, p0, host.world, t, Moment(h, AtReading(paths, reading, i, actual)), host.tick);
        ReadingOperation(paths, h, reading, i, actual, host.world(host.tick));
        var value := host.SysctlRead(keys[i]);
        if value.None? { return Err(ReadFailed(keys[i])); }
        actual := actual[keys[i] := Normalize(value.value)];
      }
      ReadingEnds(paths, reading, actual);
      var v := VerifyMaps(actual, expected);
      return Ok(v);
    }

    // restoreSnapshot: best effort over the files and the sysctls, then verification.
    method RestoreSnapshot(ghost cause: Cause, snap: Snapshot) returns (errs: seq<Failure>)
      modifies host`tick, host`files, host`dirs, host`strays, host`sysctls
      ensures Reaches(paths, old(host.View()), AtRestore(paths, snap, cause), host.world, old(host.tick),
                      Moment(host.View(), Ended(snap, cause, errs)), host.tick)
    {
      hide Exec, Step, SortedKeys, InRange, Reaches, AtRestoreFile, AtRestoreKey, AtRecheck, SnapshotTest, Ended,
           RestoreOwned, AssignSysctl, AfterReading, AtReading, Note, Compared;
      ghost var h, t, p0 := host.View(), host.tick, AtRestore(paths, snap, cause);
      ReachesStart(paths, h, p0, host.world, t);
      if !SnapshotTest(paths, snap) { return [UnsafeSnapshot]; }
      errs := [];
      var owned := CollectSortedKeys(snap.files);
      for j := 0 to |owned|
        invariant forall k | 0 <= k < |owned| :: owned[k] in snap.files
        invariant Reaches(paths, h, p0, host.world, t, Moment(host.View(), AtRestoreFile(snap, cause, j, errs)), host.tick)
      {
        ReachesNext(paths, h, p0, host.world, t, Moment(host.View(), AtRestoreFile(snap, cause, j, errs)), host.tick);
        FileOperation(paths, host.View(), snap, cause, j, errs, host.world(host.tick));
        var ok := host.RestoreFile(snap.files[owned[j]]);
        errs := Note(errs, ok, owned[j]);
      }
      FilesDone(snap, cause, errs);
      var keys := CollectSortedKeys(snap.sysctls);
      for i := 0 to |keys|
        invariant forall k | 0 <= k < |keys| :: keys[k] in snap.sysctls
        invariant Reaches(paths, h, p0, host.world, t, Moment(host.View(), AtRestoreKey(snap, cause, i, errs)), host.tick)
      {
        ReachesNext(paths, h, p0, host.world, t, Moment(host.View(), AtRestoreKey(snap, cause, i, errs)), host.tick);
        KeyOperation(paths, host.View(), snap, cause, i, errs, host.world(host.tick));
        var ok := host.SysctlAssign(keys[i], snap.sysctls[keys[i]]);
        errs := Note(errs, ok, keys[i]);
      }
      KeysDone(snap, cause, errs);
      if errs == [] {
        ghost var m, u := Moment(host.View(), AtRecheck(snap, cause, 0, map[])), host.tick;
        RecheckIsReading(paths, snap, cause);
        var r := VerifyExpected(InRestore(snap, cause), snap.sysctls);
        ReachesTrans(paths, h, p0, host.world, t, m, u, Moment(host.View(), AfterReading(paths, InRestore(snap, cause), r)), host.tick);
        AfterRecheck(paths, snap, cause, r);
        match r
        case Err(failure) => errs := [failure];
        case Ok(v) => if !v.ok { errs := [RestoreMismatch]; }
      }
    }

    // readSnapshot, with the trimmed pointer standing in for an empty identifier.
    method ReadSnapshot(requested: string) returns (r: Result<Snapshot, Failure>)
      modifies host`tick
      ensures InRange(First(RollbackOp(requested)))
      ensures Reaches(paths, host.View(), First(RollbackOp(requested)), host.world, old(host.tick),
                      Moment(host.View(), match r case Ok(snap) => AtRestore(paths, snap, REQUESTED) case Err(f) => Failed("", f)),
                      host.tick)
    {
      hide Exec, SortedKeys, InRange, Reaches, AtRestore, MatchesPattern, TrimEdges;
      ghost var h, t, p0 := host.View(), host.tick, First(RollbackOp(requested));
      FirstIsInRange(RollbackOp(requested));
      ReachesStart(paths, h, p0, host.world, t);
      var id := requested;
      if id == "" {
        ReachesNext(paths, h, p0, host.world, t, Moment(h, ReadLatest), host.tick);
        var data := host.ReadPointer();
        if data.None? { return Err(LatestUnreadable); }
        id := StringTrimSpace(data.value);
      }
      assert Reaches(paths, h, p0, host.world, t, Moment(h, AtReadStored(id)), host.tick);
      if !MatchesPattern(id) { return Err(InvalidId); }
      ReachesNext(paths, h, p0, host.world, t, Moment(h, ReadStored(id)), host.tick);
      var record := host.ReadRecord(id);
      if record.None? { return Err(SnapshotUnreadable); }
      if record.value.version != SNAPSHOT_VERSION || record.value.id != id { return Err(SnapshotInconsistent); }
      return Ok(record.value);
    }

    // The part of Apply between taking and releasing the lock.
    method ApplyLocked(plan: Plan) returns (report: Report)
      modifies host`tick, host`sysctls, host`available, host`files, host`dirs, host`strays, host`store, host`latest
      ensures Reaches(paths, old(host.View()), Modprobe(plan), host.world, old(host.tick),
                      Moment(host.View(), Finished(report)), host.tick)
    {
      hide Exec, SortedKeys, InRange, Reaches, AtRestore, AtVerify, AtCaptureKey, Fields, AssignedKeys,
           SnapshotTest, Compared, FormatId;
      ghost var h, t, p0 := host.View(), host.tick, Modprobe(plan);
      assert InRange(p0) by { FirstIsInRange(ApplyOp(plan)); }
      ReachesStart(paths, h, p0, host.world, t);
      ReachesNext(paths, h, p0, host.world, t, Moment(host.View(), p0), host.tick);
      var loaded := host.LoadModule();
      if !loaded { return Report("", UNVERIFIED, Some(ModuleLoadFailed), []); }

      ReachesNext(paths, h, p0, host.world, t, Moment(host.View(), CheckBbr(plan)), host.tick);
      var available, now := host.ReadAvailable();
      if available.None? || !WordPresent(available.value, "bbr") { return Report("", UNVERIFIED, Some(BbrMissing), []); }

      ghost var m, u := Moment(host.View(), AtCaptureKey(plan, now, 0, map[])), host.tick;
      var keys := CollectSortedKeys(plan.recommendation.sysctls);
      var captured := CaptureSnapshot(plan, keys, now);
      ReachesTrans(paths, h, p0, host.world, t, m, u,
        Moment(host.View(), match captured case Ok(snap) => StoreSnapshot(plan, snap) case Err(f) => Failed("", f)), host.tick);
      if captured.Err? { return Report("", UNVERIFIED, Some(captured.error), []); }
      var snap := captured.value;

      var failure := WriteSnapshot(plan, snap, h, t);
      if failure.Some? { return Report("", UNVERIFIED, failure, []); }
      report := Commit(plan, snap, h, t);
    }

    // writeSnapshot: the record, then the pointer to it.
    method WriteSnapshot(ghost plan: Plan, snap: Snapshot, ghost h: State, ghost t: nat) returns (failure: Option<Failure>)
      requires InRange(Modprobe(plan))
      requires Reaches(paths, h, Modprobe(plan), host.world, t, Moment(host.View(), StoreSnapshot(plan, snap)), host.tick)
      modifies host`tick, host`strays, host`store, host`latest
      ensures Reaches(paths, h, Modprobe(plan), host.world, t,
                      Moment(host.View(), if failure.None? then WriteSysctl(plan, snap) else Failed("", failure.value)), host.tick)
    {
      hide Exec, InRange, Reaches, AtRestore, AtVerify, SnapshotTest;
      ReachesNext(paths, h, Modprobe(plan), host.world, t, Moment(host.View(), StoreSnapshot(plan, snap)), host.tick);
      var stored := host.WriteRecord(snap);
      if !stored { return Some(SaveFailed(snap.id)); }
      ReachesNext(paths, h, Modprobe(plan), host.world, t, Moment(host.View(), StoreLatest(plan, snap)), host.tick);
      var pointed := host.WritePointer(snap.id);
      if !pointed { return Some(SaveFailed("latest")); }
      return None;
    }

    // From the first file write on: any failure turns into a restore.
    method Commit(plan: Plan, snap: Snapshot, ghost h: State, ghost t: nat) returns (report: Report)
      requires InRange(Modprobe(plan))
      requires Reaches(paths, h, Modprobe(plan), host.world, t, Moment(host.View(), WriteSysctl(plan, snap)), host.tick)
      modifies host`tick, host`sysctls, host`files, host`dirs, host`strays
      ensures Reaches(paths, h, Modprobe(plan), host.world, t, Moment(host.View(), Finished(report)), host.tick)
    {
      hide Exec, SortedKeys, InRange, Reaches, AtRestore, AtVerify, AssignedKeys, SnapshotTest, Compared, AtReading,
           AfterReading;
      ghost var p0 := Modprobe(plan);
      var failure := WriteAndLoad(plan, snap, h, t);
      if failure.Some? {
        report := UndoAfter(plan, snap, Cause(failure, UNVERIFIED), h, t);
        return;
      }
      ghost var reading := InApply(plan, snap);
      ghost var m, u := Moment(host.View(), AtVerify(paths, plan, snap, 0, map[])), host.tick;
      VerifyIsReading(paths, plan, snap);
      var r := VerifyExpected(reading, plan.recommendation.sysctls);
      ReachesTrans(paths, h, p0, host.world, t, m, u, Moment(host.View(), AfterReading(paths, reading, r)), host.tick);
      AfterVerify(paths, plan, snap, r);
      match r
      case Err(f) => report := UndoAfter(plan, snap, Because(f), h, t);
      case Ok(v) =>
        if v.ok {
          report := Report(snap.id, v, None, []);
        } else {
          report := UndoAfter(plan, snap, Cause(Some(VerifyMismatch), v), h, t);
        }
    }

    // The two files, then `sysctl -p`; the first failure, if any.
    method WriteAndLoad(plan: Plan, snap: Snapshot, ghost h: State, ghost t: nat) returns (failure: Option<Failure>)
      requires InRange(Modprobe(plan))
      requires Reaches(paths, h, Modprobe(plan), host.world, t, Moment(host.View(), WriteSysctl(plan, snap)), host.tick)
      modifies host`tick, host`sysctls, host`files, host`dirs, host`strays
      ensures Reaches(paths, h, Modprobe(plan), host.world, t,
                      Moment(host.View(), if failure.None? then AtVerify(paths, plan, snap, 0, map[])
                                          else AtRestore(paths, snap, Because(failure.value))), host.tick)
    {
      hide Exec, InRange, Reaches, AtRestore, AtVerify, AssignedKeys, SnapshotTest;
      ghost var p0 := Modprobe(plan);
      ReachesNext(paths, h, p0, host.world, t, Moment(host.View(), WriteSysctl(plan, snap)), host.tick);
      var ok := host.AtomicWrite(paths.sysctlFile, plan.config, 420);
      if !ok { return Some(WriteFailed(paths.sysctlFile)); }
      ReachesNext(paths, h, p0, host.world, t, Moment(host.View(), WriteModules(plan, snap)), host.tick);
      ok := host.AtomicWrite(paths.modulesFile, MODULES_CONTENT, 420);
      if !ok { return Some(WriteFailed(paths.modulesFile)); }
      ReachesNext(paths, h, p0, host.world, t, Moment(host.View(), Load(plan, snap)), host.tick);
      ok := host.SysctlLoad(paths.sysctlFile);
      if !ok { return Some(LoadFailed); }
      return None;
    }

    method UndoAfter(ghost plan: Plan, snap: Snapshot, cause: Cause, ghost h: State, ghost t: nat) returns (report: Report)
      requires InRange(Modprobe(plan))
      requires Reaches(paths, h, Modprobe(plan), host.world, t, Moment(host.View(), AtRestore(paths, snap, cause)), host.tick)
      modifies host`tick, host`sysctls, host`files, host`dirs, host`strays
      ensures Reaches(paths, h, Modprobe(plan), host.world, t, Moment(host.View(), Finished(report)), host.tick)
      ensures report.failure == cause.failure
    {
      hide Exec, InRange, Reaches, AtRestore;
      ghost var m, u := Moment(host.View(), AtRestore(paths, snap, cause)), host.tick;
      var errs := RestoreSnapshot(cause, snap);
      ReachesTrans(paths, h, Modprobe(plan), host.world, t, m, u, Moment(host.View(), Ended(snap, cause, errs)), host.tick);
      report := Report(snap.id, cause.verification, cause.failure, errs);
    }

    // Whether an operation gets past its checks and is granted the lock.
    ghost predicate Granted(op: Op)
      reads host`tick, host`locked
    {
      Ready() && euid == 0 && Admitted(op) && host.world(host.tick).ok && !host.locked
    }

    function RefusalOf(op: Op): Failure {
      if !Ready() then NotReady else if euid != 0 then NotRoot else if !Admitted(op) then OutsideAllowlist else LockBusy
    }

    // Apply: refused with nothing touched, or one section of the engine under the lock,
    // which is free again afterwards on every path.
    method Apply(plan: Plan) returns (report: Report)
      modifies host`tick, host`locked, host`sysctls, host`available, host`files, host`dirs, host`strays, host`store, host`latest
      ensures host.locked == old(host.locked)
      ensures !old(Granted(ApplyOp(plan))) ==>
                host.View() == old(host.View()) && report == Report("", UNVERIFIED, Some(RefusalOf(ApplyOp(plan))), [])
      // The tests before the lock: initialised with all four paths, root, and the allowlist.
      ensures !initialized || paths.sysctlFile == "" || paths.modulesFile == "" || paths.stateDir == "" || paths.lockFile == "" ==>
                host.View() == old(host.View()) && report.failure == Some(NotReady)
      ensures euid != 0 ==> host.View() == old(host.View()) && report.failure.Some? && report.failure.value in {NotReady, NotRoot}
      ensures plan.recommendation.sysctls.Keys != MANAGED_SYSCTLS ==>
                host.View() == old(host.View()) && report.failure.Some?
                && report.failure.value in {NotReady, NotRoot, OutsideAllowlist}
      ensures old(host.locked) ==> host.View() == old(host.View()) && report.failure.Some?
      // Without bbr on offer nothing is captured, stored or written.
      ensures !(host.world(old(host.tick) + 1).ok && host.world(old(host.tick) + 2).ok
                && "bbr" in Fields(host.world(old(host.tick) + 1).text)) ==>
                host.View() == old(host.View()).(available := host.available) && report.failure.Some?
                && report.snapshotId == "" && report.restoreFailures == []
      ensures old(Granted(ApplyOp(plan))) && !BbrOffered(host.world, old(host.tick) + 1) ==>
                report == Turned(host.world, old(host.tick) + 1)
      // The identifier it reports is the clock read right after that.
      ensures report.snapshotId != "" ==> report.snapshotId == FormatId(host.world(old(host.tick) + 2).stamp)
      ensures old(Granted(ApplyOp(plan))) ==>
                Reaches(paths, old(host.View()), Modprobe(plan), host.world, old(host.tick) + 1,
                        Moment(host.View(), Finished(report)), host.tick)
      ensures Distinct(paths) && report.NoError() ==> Applied(paths, plan, host.View())
      ensures Distinct(paths) && !report.NoError() && report.restoreFailures == [] ==>
                PutBack(paths, old(host.View()), host.View(), report.snapshotId)
      ensures Distinct(paths) && old(Granted(ApplyOp(plan))) ==>
                Outcome(paths, ApplyOp(plan), old(host.View()), host.View(), report)
      ensures Distinct(paths) && Contained(plan) ==> Framed(paths, old(host.View()), host.View())
      ensures StraysFollow(old(host.strays), host.strays, host.world)
      ensures old(Granted(ApplyOp(plan))) ==> Ends(paths, true, old(host.dirs), host.dirs, report)
    {
      hide Ends, StraysFollow, Contained, Framed, Exec, AllowlistTest, Applied, PutBack, Recoverable, Captured, Attests,
           MANAGED_SYSCTLS, Fields, FormatId;
      FollowsItself(host.strays, host.world);
      AllowlistTestIff(plan.recommendation.sysctls);
      if !Ready() { SameAsBefore(); return Report("", UNVERIFIED, Some(NotReady), []); }
      if euid != 0 { SameAsBefore(); return Report("", UNVERIFIED, Some(NotRoot), []); }
      if !AllowlistTest(plan.recommendation.sysctls) { SameAsBefore(); return Report("", UNVERIFIED, Some(OutsideAllowlist), []); }
      var granted := host.Lock();
      if !granted { SameAsBefore(); return Report("", UNVERIFIED, Some(LockBusy), []); }
      ghost var b, t := host.View(), host.tick;
      report := ApplyLocked(plan);
      host.Unlock();
      FirstIsInRange(ApplyOp(plan));
      SectionFacts(paths, ApplyOp(plan), b, host.world, t, host.View(), report, host.tick);
      GateFacts(paths, plan, b, host.world, t, host.View(), report, host.tick);
    }

    lemma SameAsBefore()
      ensures PutBack(paths, host.View(), host.View(), "") && Framed(paths, host.View(), host.View())
    {
    }

    // The part of Rollback between taking and releasing the lock.
    method RollbackLocked(id: string) returns (report: Report)
      modifies host`tick, host`sysctls, host`files, host`dirs, host`strays
      ensures InRange(First(RollbackOp(id)))
      ensures Reaches(paths, old(host.View()), First(RollbackOp(id)), host.world, old(host.tick),
                      Moment(host.View(), Finished(report)), host.tick)
    {
      hide Exec, InRange, Reaches, AtRestore, First, SnapshotTest;
      ghost var b, t := host.View(), host.tick;
      FirstIsInRange(RollbackOp(id));
      var read := ReadSnapshot(id);
      match read {
        case Err(f) => report := Report("", UNVERIFIED, Some(f), []);
        case Ok(snap) =>
          ghost var m, u := Moment(host.View(), AtRestore(paths, snap, REQUESTED)), host.tick;
          var errs := RestoreSnapshot(REQUESTED, snap);
          ReachesTrans(paths, b, First(RollbackOp(id)), host.world, t, m, u,
                       Moment(host.View(), Ended(snap, REQUESTED, errs)), host.tick);
          report := Report(snap.id, UNVERIFIED, None, errs);
      }
    }

    lemma RefusedDirs()
      ensures forall failure | failure == NotReady || failure == NotRoot || failure == LockBusy ::
                Ends(paths, false, host.dirs, host.dirs, Report("", UNVERIFIED, Some(failure), []))
    {
    }

    // Rollback: refused with nothing touched, or one section of the engine.
    method Rollback(id: string) returns (report: Report)
      modifies host`tick, host`locked, host`sysctls, host`files, host`dirs, host`strays
      ensures host.locked == old(host.locked)
      ensures !old(Granted(RollbackOp(id))) ==>
                host.View() == old(host.View()) && report == Report("", UNVERIFIED, Some(RefusalOf(RollbackOp(id))), [])
      ensures InRange(First(RollbackOp(id)))
      ensures old(Granted(RollbackOp(id))) ==>
                Reaches(paths, old(host.View()), First(RollbackOp(id)), host.world, old(host.tick) + 1,
                        Moment(host.View(), Finished(report)), host.tick)
      ensures !initialized || paths.sysctlFile == "" || paths.modulesFile == "" || paths.stateDir == "" || paths.lockFile == "" ==>
                host.View() == old(host.View()) && report.failure == Some(NotReady)
      ensures euid != 0 ==> host.View() == old(host.View()) && report.failure.Some? && report.failure.value in {NotReady, NotRoot}
      ensures old(host.locked) ==> host.View() == old(host.View()) && report.failure.Some?
      // Asked for a readable and acceptable record, by its identifier or as the latest one, on
      // a cooperating host it ends without error in the record's state.
      ensures forall found | old(Granted(RollbackOp(id))) && Reachable(paths, old(host.View()), id, found)
                             && Cooperative(host.world, old(host.View()).store[found]) ::
                Returned(old(host.View()), found, host.View(), report)
      ensures Distinct(paths) && old(Granted(RollbackOp(id))) ==>
                Outcome(paths, RollbackOp(id), old(host.View()), host.View(), report)
      ensures Distinct(paths) ==> Framed(paths, old(host.View()), host.View())
      ensures Ends(paths, false, old(host.dirs), host.dirs, report)
      ensures StraysFollow(old(host.strays), host.strays, host.world)
    {
      hide Ends, StraysFollow, PutBack, Applied, Recoverable, FilesAre, KeysAgree, SameStore, Framed, Exec, SnapshotTest,
           Returned, Cooperative, Attests, Agrees, MatchesPattern, First, AtRestore, Denotes, Readable;
      FirstIsInRange(RollbackOp(id));
      SameAsBefore();
      RefusedDirs();
      FollowsItself(host.strays, host.world);
      if !Ready() { return Report("", UNVERIFIED, Some(NotReady), []); }
      if euid != 0 { return Report("", UNVERIFIED, Some(NotRoot), []); }
      var granted := host.Lock();
      if !granted { return Report("", UNVERIFIED, Some(LockBusy), []); }
      ghost var b, t := host.View(), host.tick;
      report := RollbackLocked(id);
      host.Unlock();
      SectionFacts(paths, RollbackOp(id), b, host.world, t, host.View(), report, host.tick);
      RollbackFacts(paths, id, b, host.world, t, host.View(), report, host.tick);
    }
  }

  lemma FinishedOutcome(cfg: Paths, op: Op, b: State, h: State, report: Report)
    requires InRange(Finished(report)) && Inv(cfg, op, b, h, Finished(report))
    ensures Outcome(cfg, op, b, h, report)
  {
    hide Outcome;
  }

  lemma GateFacts(cfg: Paths, plan: Plan, b: State, world: nat -> Answer, t: nat, h: State, report: Report, u: nat)
    requires InRange(Modprobe(plan)) && Reaches(cfg, b, Modprobe(plan), world, t, Moment(h, Finished(report)), u)
    ensures !(world(t).ok && world(t + 1).ok && "bbr" in Fields(world(t).text)) ==>
              h == b.(available := h.available) && report == Turned(world, t)
    ensures report.snapshotId != "" ==> report.snapshotId == FormatId(world(t + 1).stamp)
  {
    hide Exec, InRange, Fields, FormatId;
    SnapshotNamesClock(cfg, b, plan, world, t, u - t);
    if !(world(t).ok && world(t + 1).ok && "bbr" in Fields(world(t).text)) {
      NothingWithoutBbr(cfg, b, plan, world, t, u - t);
    }
  }

  lemma RollbackFacts(cfg: Paths, id: string, b: State, world: nat -> Answer, t: nat, h: State, report: Report, u: nat)
    requires InRange(First(RollbackOp(id))) && Reaches(cfg, b, First(RollbackOp(id)), world, t, Moment(h, Finished(report)), u)
    ensures forall found | Reachable(cfg, b, id, found) && Cooperative(world, b.store[found]) :: Returned(b, found, h, report)
  {
    hide Exec, InRange, First, Cooperative, Returned;
    forall found | Reachable(cfg, b, id, found) && Cooperative(world, b.store[found]) ensures Returned(b, found, h, report) {
      RollbackReport(cfg, id, found, b, world, t, h, report, u);
    }
  }

  // What is known of every finished section.
  lemma SectionFacts(cfg: Paths, op: Op, b: State, world: nat -> Answer, t: nat, h: State, report: Report, u: nat)
    requires InRange(First(op)) && Reaches(cfg, b, First(op), world, t, Moment(h, Finished(report)), u)
    ensures StraysFollow(b.strays, h.strays, world) && Ends(cfg, op.ApplyOp?, b.dirs, h.dirs, report)
    ensures Distinct(cfg) && Admitted(op) ==> Outcome(cfg, op, b, h, report)
    ensures Distinct(cfg) && Admitted(op) && (op.ApplyOp? ==> Contained(op.plan)) ==> Framed(cfg, b, h)
  {
    hide StraysFollow, Ends, Outcome, Framed, First, Exec, Contained, Admitted, Next, Effect, Inv, InRange;
    RunsFollow(cfg, b, First(op), world, t, u - t);
    SectionDirectories(cfg, op, b, world, t, u - t);
    if Distinct(cfg) && Admitted(op) {
      ExecKeepsInv(cfg, op, b, world, t, u - t);
      FinishedOutcome(cfg, op, b, h, report);
      if op.ApplyOp? ==> Contained(op.plan) { RunsAreFramed(cfg, op, b, world, t, u - t); }
    }
  }

  // ---------- the two places that read the expected keys back ----------

  datatype Reading = InApply(plan: Plan, snap: Snapshot) | InRestore(snap: Snapshot, cause: Cause) {
    function Expected(): Values {
      match this
      case InApply(plan, _) => plan.recommendation.sysctls
      case InRestore(snap, _) => snap.sysctls
    }
  }

  ghost function AtReading(cfg: Paths, reading: Reading, i: nat, actual: Values): (p: Proc)
    ensures InRange(p)
  {
    match reading
    case InApply(plan, snap) => AtVerify(cfg, plan, snap, i, actual)
    case InRestore(snap, cause) => AtRecheck(snap, cause, i, actual)
  }

  ghost function AfterReading(cfg: Paths, reading: Reading, r: Result<Verification, Failure>): (p: Proc)
    ensures InRange(p)
  {
    match reading
    case InApply(plan, snap) =>
      (match r
       case Err(f) => AtRestore(cfg, snap, Because(f))
       case Ok(v) => if v.ok then Finished(Report(snap.id, v, None, [])) else AtRestore(cfg, snap, Cause(Some(VerifyMismatch), v)))
    case InRestore(snap, cause) =>
      (match r
       case Err(f) => Ended(snap, cause, [f])
       case Ok(v) => Ended(snap, cause, if v.ok then [] else [RestoreMismatch]))
  }

  lemma ReadingOperation(cfg: Paths, h: State, reading: Reading, i: nat, actual: Values, a: Answer)
    requires i < |SortedKeys(reading.Expected().Keys)|
    ensures var key := SortedKeys(reading.Expected().Keys)[i];
            Step(cfg, h, AtReading(cfg, reading, i, actual), a) ==
            Moment(h, if ReadSysctl(h, key, a).None? then AfterReading(cfg, reading, Err(ReadFailed(key)))
                      else AtReading(cfg, reading, i + 1, actual[key := Normalize(h.sysctls[key])]))
  {
    hide SortedKeys, Normalize, AtRestore, AtVerify, AtRecheck, Step;
    match reading
    case InApply(plan, snap) => VerifyKeyOperation(cfg, h, plan, snap, i, actual, a);
    case InRestore(snap, cause) => RecheckKeyOperation(cfg, h, snap, cause, i, actual, a);
  }

  lemma ReadingEnds(cfg: Paths, reading: Reading, actual: Values)
    ensures AtReading(cfg, reading, |SortedKeys(reading.Expected().Keys)|, actual)
            == AfterReading(cfg, reading, Ok(Compared(actual, reading.Expected())))
  {
    hide SortedKeys, AtRestore, Meets, ChecksOf;
  }

  lemma RecheckIsReading(cfg: Paths, snap: Snapshot, cause: Cause)
    ensures AtReading(cfg, InRestore(snap, cause), 0, map[]) == AtRecheck(snap, cause, 0, map[])
  {
    hide AtRecheck;
  }

  lemma VerifyIsReading(cfg: Paths, plan: Plan, snap: Snapshot)
    ensures AtReading(cfg, InApply(plan, snap), 0, map[]) == AtVerify(cfg, plan, snap, 0, map[])
  {
    hide AtVerify;
  }

  lemma AfterRecheck(cfg: Paths, snap: Snapshot, cause: Cause, r: Result<Verification, Failure>)
    ensures AfterReading(cfg, InRestore(snap, cause), r) ==
            Ended(snap, cause, if r.Err? then [r.error] else if r.value.ok then [] else [RestoreMismatch])
  {
  }

  lemma AfterVerify(cfg: Paths, plan: Plan, snap: Snapshot, r: Result<Verification, Failure>)
    ensures AfterReading(cfg, InApply(plan, snap), r) ==
            if r.Err? then AtRestore(cfg, snap, Because(r.error))
            else if r.value.ok then Finished(Report(snap.id, r.value, None, []))
            else AtRestore(cfg, snap, Cause(Some(VerifyMismatch), r.value))
  {
    hide AtRestore;
  }

  lemma FilesDone(snap: Snapshot, cause: Cause, errs: seq<Failure>)
    ensures AtRestoreFile(snap, cause, |SortedKeys(snap.files.Keys)|, errs) == AtRestoreKey(snap, cause, 0, errs)
  {
    hide SortedKeys, AtRestoreKey;
  }

  lemma KeysDone(snap: Snapshot, cause: Cause, errs: seq<Failure>)
    ensures AtRestoreKey(snap, cause, |SortedKeys(snap.sysctls.Keys)|, errs)
            == if errs == [] then AtRecheck(snap, cause, 0, map[]) else Ended(snap, cause, errs)
  {
    hide SortedKeys, AtRecheck;
  }

  lemma FirstIsInRange(op: Op)
    ensures InRange(First(op))
  {
    hide MatchesPattern;
  }

  lemma KeysCaptured(plan: Plan, now: Stamp, values: Values)
    ensures AtCaptureKey(plan, now, |KeysOf(plan)|, values) == AtCaptureOwned(plan, now, values, 0, map[])
  {
  }
}
