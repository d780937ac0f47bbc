/**
 `service install`: reconcile first, then install the automation, and if that fails
 undo the reconcile by its snapshot.  Two transactions, one compensation.
 */
module Service {
  import opened Wrappers
  import opened Text
  import opened Recommend
  import opened Config
  import opened HostState
  import opened Engine
  import opened EngineProofs
  import opened Recovery
  import opened Directories
  import opened Units
  import opened Reconcile
  import opened Installer

  // Nothing is claimed about the two lock files, the state directory and what lies above them.
  predicate Exempt(cfg: Paths, paths: AutomationPaths, path: string) {
    ExemptPath(cfg, path) || path == paths.lockFile
  }

  predicate ExemptFolder(cfg: Paths, paths: AutomationPaths, dir: string) {
    ExemptDir(cfg, dir) || dir in Above(paths.lockFile)
  }

  // The four automation files are none of the two tuning files, and none of the six is exempt.
  predicate Disjoint(cfg: Paths, paths: AutomationPaths) {
    && cfg.sysctlFile !in paths.OwnedSet() && cfg.modulesFile !in paths.OwnedSet()
    && !Exempt(cfg, paths, cfg.sysctlFile) && !Exempt(cfg, paths, cfg.modulesFile)
    && forall i | 0 <= i < 4 :: !Exempt(cfg, paths, paths.Owned()[i])
  }

  // ---------- the paths the tool uses ----------

  const TUNING_PATHS := Paths(
    "/etc/sysctl.d/" + "99-sshappy-tune.conf", "/etc/modules-load.d/" + "sshappy-tune-bbr.conf",
    "/var/lib/" + "sshappy-tune", "/run/lock/" + "sshappy-tune.lock")

  const UNIT_DIR := "/etc/systemd/system/"

  const AUTOMATION_PATHS := AutomationPaths(
    "/usr/local/sbin/" + "sshappy-tune", "/etc/sshappy-tune/" + "profile.json",
    UNIT_DIR + "sshappy-tune-apply.service", UNIT_DIR + "sshappy-tune-verify.service",
    UNIT_DIR + "sshappy-tune-verify.timer", "/run/lock/" + "sshappy-tune-automation.lock")

  // They differ in their lengths, and none of the six lies under /run or /var.
  lemma PathShapes()
    ensures var c, p := TUNING_PATHS, AUTOMATION_PATHS;
            && |c.sysctlFile| == 34 && |c.modulesFile| == 41
            && |p.profile| == 30 && |p.applyUnit| == 46 && |p.verifyUnit| == 47 && |p.timer| == 45
  {
  }

  lemma PathStarts()
    ensures var c, p := TUNING_PATHS, AUTOMATION_PATHS;
            && c.sysctlFile[1] == 'e' && c.modulesFile[1] == 'e' && c.stateDir[1] == 'v' && c.lockFile[1] == 'r'
            && p.profile[1] == 'e' && p.applyUnit[1] == 'e' && p.verifyUnit[1] == 'e' && p.timer[1] == 'e' && p.lockFile[1] == 'r'
  {
  }

  lemma SoundPaths()
    ensures AUTOMATION_PATHS.Sound()
  {
  }

  lemma OutsideTheState(path: string)
    requires |path| > 1 && path[1] == 'e'
    ensures !Exempt(TUNING_PATHS, AUTOMATION_PATHS, path)
  {
    hide UNIT_DIR;
    PathStarts();
    var root := TUNING_PATHS.stateDir;
    PrefixAgrees(path, root + "/", 1);
  }

  // With these paths all that is assumed of paths holds.
  lemma UsualPathsFit()
    ensures AUTOMATION_PATHS.Sound()
    ensures Distinct(TUNING_PATHS) && AUTOMATION_PATHS.Apart() && Disjoint(TUNING_PATHS, AUTOMATION_PATHS)
  {
    hide Exempt, AutomationPaths.Sound;
    SoundPaths();
    PathShapes();
    PathStarts();
    OutsideTheState(TUNING_PATHS.sysctlFile);
    OutsideTheState(TUNING_PATHS.modulesFile);
    OutsideTheState(AUTOMATION_PATHS.profile);
    OutsideTheState(AUTOMATION_PATHS.applyUnit);
    OutsideTheState(AUTOMATION_PATHS.verifyUnit);
    OutsideTheState(AUTOMATION_PATHS.timer);
  }

  function NewProfile(input: Input): ManagedProfile {
    ManagedProfile(PROFILE_VERSION, MANAGED_BY, if input.role == "" then input.(role := "proxy") else input)
  }

  // The input as it was asked for: without a role, for a proxy.
  function Asked(input: Input): Input {
    Input(input.bandwidthMbps, input.rttMillis, if input.role == "" then "proxy" else input.role)
  }

  lemma NewProfileIs(input: Input)
    ensures NewProfile(input) == ManagedProfile(1, "sshappy-tune", Asked(input))
  {
  }

  // What the command reports: its error, what undoing reported, whether the four files
  // were restored, and the rollback it issued, if it issued one.
  datatype ServiceReport = ServiceReport(
    result: ReconcileResult, failure: Option<Failure>, undoFailures: seq<Failure>, undone: bool, rollback: Option<Report>)
  {
    // A rollback is issued exactly for a change, and then for the snapshot of that change.
    predicate Consistent() {
      (rollback.Some? <==> failure.Some? && result.changed) && (result.changed ==> result.snapshotId != "")
    }

    predicate UndoneCleanly() {
      undoFailures == [] && (rollback.Some? ==> rollback.value.NoError())
    }
  }

  // How the run went: when the reconcile was over, and the files that Install then tried to write.
  datatype Trace = Trace(mid: nat, tried: seq<string>)

  ghost predicate SameFiles(cfg: Paths, paths: AutomationPaths, a: State, b: State) {
    forall path | !Exempt(cfg, paths, path) :: SameAt(a.files, b.files, path)
  }

  ghost predicate SameDirs(cfg: Paths, paths: AutomationPaths, a: State, b: State) {
    forall dir | !ExemptFolder(cfg, paths, dir) :: dir in b.dirs <==> dir in a.dirs
  }

  // Every managed sysctl, both tuning files and the four automation files are as before;
  // all files are the very same nodes exactly if the condition holds.
  ghost predicate AsBefore(cfg: Paths, paths: AutomationPaths, a: State, b: State, exact: bool) {
    SameManaged(cfg, a, b) && SameOwned(paths, a.files, b.files) && (SameFiles(cfg, paths, a, b) <==> exact)
  }

  // These directories had been there, as far as anything is claimed about them.
  ghost predicate HadBeen(cfg: Paths, paths: AutomationPaths, dirs: set<string>, came: set<string>) {
    forall dir | dir in came :: dir in dirs || ExemptFolder(cfg, paths, dir)
  }

  // Whatever was restored had no mode bit above the permissions.
  predicate NothingLost(cfg: Paths, paths: AutomationPaths, a: State, snapshotId: string, undone: bool) {
    (snapshotId == "" || PlainModes(cfg, a)) && (!undone || PlainOwned(paths, a.files))
  }

  // Nothing but the managed sysctls and the six files differs, except that new directories
  // above the six and further temporary files may be there.
  ghost predicate Confined(cfg: Paths, paths: AutomationPaths, a: State, b: State) {
    && (forall key | key !in MANAGED_SYSCTLS ::
          (key in b.sysctls <==> key in a.sysctls) && (key in a.sysctls ==> b.sysctls[key] == a.sysctls[key]))
    && (forall path | path != cfg.sysctlFile && path != cfg.modulesFile && path !in paths.OwnedSet()
                      && !Exempt(cfg, paths, path) :: SameAt(a.files, b.files, path))
    && DirsConfined(cfg, paths, a.dirs, b.dirs)
    && Kept(a.strays, b.strays)
  }

  predicate DirsConfined(cfg: Paths, paths: AutomationPaths, a: set<string>, b: set<string>) {
    && a <= b
    && forall dir | dir in b && !ExemptFolder(cfg, paths, dir) :: dir in a || dir in BothAbove(cfg) || dir in AboveOwned(paths)
  }

  // The second host differs from the first in files and directories only.
  predicate OnlyFiles(a: State, b: State) {
    b == a.(files := b.files, dirs := b.dirs, strays := b.strays)
  }

  ghost predicate OwnedSame(paths: AutomationPaths, a: map<string, Node>, b: map<string, Node>) {
    forall i | 0 <= i < 4 :: SameAt(a, b, paths.Owned()[i])
  }

  // ---------- composing the two transactions ----------

  lemma SnapshotIdsAreNotEmpty(cfg: Paths, b: State, h: State, id: string)
    requires RecordOf(cfg, b, h, id)
    ensures id != ""
  {
    hide SnapshotTest, TakenOf, Durable, IsId;
    var snap :| Captured(cfg, b, snap) && Durable(h, snap) && snap.id == id;
    IdsAreNotEmpty(snap.id);
  }

  // The tuning transaction leaves the automation files alone.
  lemma FramedKeepsOwned(cfg: Paths, paths: AutomationPaths, a: State, b: State)
    requires Framed(cfg, a, b) && Disjoint(cfg, paths)
    ensures OwnedSame(paths, a.files, b.files)
  {
    hide MANAGED_SYSCTLS, DirsFramed, ExemptPath;
    forall i | 0 <= i < 4 ensures SameAt(a.files, b.files, paths.Owned()[i]) {
      assert !Exempt(cfg, paths, paths.Owned()[i]) && paths.Owned()[i] in paths.OwnedSet();
    }
  }

  // The automation transaction leaves the tuning files alone.
  lemma InstallKeepsManaged(cfg: Paths, paths: AutomationPaths, a: State, b: State)
    requires Disjoint(cfg, paths) && OthersUntouched(paths, a.files, b.files) && OnlyFiles(a, b)
    ensures forall path | path !in paths.OwnedSet() :: SameAt(a.files, b.files, path)
    ensures SameManaged(cfg, a, b) && SameNodes(cfg, a, b)
  {
    hide MANAGED_SYSCTLS, OthersUntouched;
    OthersAreSame(paths, a.files, b.files);
    assert SameAt(a.files, b.files, cfg.sysctlFile) && SameAt(a.files, b.files, cfg.modulesFile);
  }

  lemma FilesBackIff(cfg: Paths, paths: AutomationPaths, a: State, d: State)
    requires Disjoint(cfg, paths) && Confined(cfg, paths, a, d)
    ensures SameFiles(cfg, paths, a, d) <==> SameNodes(cfg, a, d) && OwnedSame(paths, a.files, d.files)
  {
    hide MANAGED_SYSCTLS, Exempt, DirsConfined;
    if SameNodes(cfg, a, d) && OwnedSame(paths, a.files, d.files) {
      forall path | !Exempt(cfg, paths, path) ensures SameAt(a.files, d.files, path) {
        if path in paths.OwnedSet() {
          assert path == paths.Owned()[0] || path == paths.Owned()[1] || path == paths.Owned()[2] || path == paths.Owned()[3];
        }
      }
    }
  }

  // The whole tree is back exactly if the files are and the directories that the command's
  // writes came to had been there.
  lemma TreeIsBackIff(cfg: Paths, paths: AutomationPaths, a: State, d: State, came: set<string>, exact: bool)
    requires AsBefore(cfg, paths, a, d, exact) && d.dirs == a.dirs + came
    ensures SameFiles(cfg, paths, a, d) && SameDirs(cfg, paths, a, d) <==> exact && HadBeen(cfg, paths, a.dirs, came)
  {
    hide SameManaged, SameOwned, SameFiles, ExemptFolder;
  }

  // The four files across reconcile, install with its restore, and rollback.
  lemma OwnedAcross(paths: AutomationPaths, a: map<string, Node>, b: map<string, Node>, c: map<string, Node>,
                    d: map<string, Node>, undone: bool)
    requires OwnedSame(paths, a, b) && OwnedSame(paths, c, d)
    requires if undone then BackOrReported(paths, b, c, []) else c == b
    ensures SameOwned(paths, a, d)
    ensures OwnedSame(paths, a, d) <==> !undone || PlainOwned(paths, a)
  {
    hide Perm;
    forall i | 0 <= i < 4
      ensures NodeAlike(a, d, paths.Owned()[i])
      ensures SameAt(a, d, paths.Owned()[i]) <==> !undone || PlainAt(a, paths.Owned()[i])
    {
      assert SameAt(a, b, paths.Owned()[i]) && SameAt(c, d, paths.Owned()[i]);
      assert undone ==> BackAt(b, c, paths.Owned()[i]);
    }
  }

  // Rolling back the reconcile's own snapshot, after the four files were put back, is
  // the host before the command.
  lemma Compensated(cfg: Paths, paths: AutomationPaths, a: State, mid: State, failed: State, d: State, id: string,
                    undone: bool, report: Report)
    requires Disjoint(cfg, paths) && RecordOf(cfg, a, mid, id) && Framed(cfg, a, mid) && OnlyFiles(mid, failed)
    requires if undone then BackOrReported(paths, mid.files, failed.files, []) else failed.files == mid.files
    requires Outcome(cfg, RollbackOp(id), failed, d, report) && report.NoError() && Framed(cfg, failed, d)
    requires Confined(cfg, paths, a, d)
    ensures AsBefore(cfg, paths, a, d, NothingLost(cfg, paths, a, id, undone))
  {
    hide Framed, SameOwned, SameManaged, SnapshotTest, Agrees, TakenOf, Readable, Confined, OwnedSame, PlainOwned,
         PlainModes, BackOrReported, SameNodes, IsId;
    SnapshotIdsAreNotEmpty(cfg, a, mid, id);
    var snap :| Captured(cfg, a, snap) && Durable(mid, snap) && snap.id == id;
    AgreementIsState(cfg, a, d, snap);
    FramedKeepsOwned(cfg, paths, a, mid);
    FramedKeepsOwned(cfg, paths, failed, d);
    OwnedAcross(paths, a.files, mid.files, failed.files, d.files, undone);
    FilesBackIff(cfg, paths, a, d);
  }

  // A reconcile that put the managed state back needs no compensation.
  lemma ReconcileUndone(cfg: Paths, paths: AutomationPaths, a: State, mid: State, id: string)
    requires Disjoint(cfg, paths) && Framed(cfg, a, mid) && PutBack(cfg, a, mid, id) && Confined(cfg, paths, a, mid)
    ensures AsBefore(cfg, paths, a, mid, NothingLost(cfg, paths, a, id, false))
  {
    hide Framed, SameManaged, SameNodes, PlainModes, SameOwned, OwnedSame, Confined;
    FramedKeepsOwned(cfg, paths, a, mid);
    FilesBackIff(cfg, paths, a, mid);
    assert SameOwned(paths, a.files, mid.files) by { OwnedSameIsAlike(paths, a.files, mid.files); }
  }

  lemma OwnedSameIsAlike(paths: AutomationPaths, a: map<string, Node>, b: map<string, Node>)
    requires OwnedSame(paths, a, b)
    ensures SameOwned(paths, a, b)
  {
    forall i | 0 <= i < 4 ensures NodeAlike(a, b, paths.Owned()[i]) {
      assert SameAt(a, b, paths.Owned()[i]);
    }
  }

  // After a reconcile that changed nothing, putting the four files back is enough.
  lemma InstallUndone(cfg: Paths, paths: AutomationPaths, a: State, d: State, undone: bool)
    requires Disjoint(cfg, paths) && OnlyFiles(a, d) && OthersUntouched(paths, a.files, d.files) && Confined(cfg, paths, a, d)
    requires SameOwned(paths, a.files, d.files) && (d.files == a.files <==> !undone || PlainOwned(paths, a.files))
    ensures AsBefore(cfg, paths, a, d, NothingLost(cfg, paths, a, "", undone))
  {
    hide SameManaged, OthersUntouched, SameOwned, PlainOwned, PlainModes, SameFiles, OwnedSame, Confined;
    InstallKeepsManaged(cfg, paths, a, d);
    FilesBackIff(cfg, paths, a, d);
    NodesEverywhere(paths, a.files, d.files);
  }

  lemma NodesEverywhere(paths: AutomationPaths, a: map<string, Node>, b: map<string, Node>)
    requires OthersUntouched(paths, a, b)
    ensures b == a <==> OwnedSame(paths, a, b)
  {
    hide OthersUntouched;
    if OwnedSame(paths, a, b) { SameEverywhere(paths, a, b); }
  }

  lemma StillSettled(cfg: Paths, paths: AutomationPaths, machine: Machine, input: Input, a: State, b: State)
    requires Disjoint(cfg, paths) && OthersUntouched(paths, a.files, b.files) && OnlyFiles(a, b)
    requires Settled(cfg, machine, input, a)
    ensures Settled(cfg, machine, input, b)
  {
    hide MANAGED_SYSCTLS, Recommended, Rendered, Normalize, Fields, SameManaged, PlanOf, OthersUntouched;
    InstallKeepsManaged(cfg, paths, a, b);
    assert SameAt(a.files, b.files, cfg.sysctlFile) && SameAt(a.files, b.files, cfg.modulesFile);
    assert ProfileOf(a, machine, {}) == ProfileOf(b, machine, {});
  }

  lemma ConfinedAcross(cfg: Paths, paths: AutomationPaths, a: State, mid: State, late: State, d: State)
    requires Disjoint(cfg, paths) && Framed(cfg, a, mid) && Framed(cfg, late, d)
    requires OthersUntouched(paths, mid.files, late.files) && OnlyFiles(mid, late) && Kept(mid.strays, late.strays)
    requires mid.dirs <= late.dirs <= mid.dirs + AboveOwned(paths)
    ensures Confined(cfg, paths, a, d)
  {
    hide MANAGED_SYSCTLS, SameManaged, SameNodes, OthersUntouched, ExemptPath, DirsConfined, DirsFramed, AboveOwned;
    InstallKeepsManaged(cfg, paths, mid, late);
    DirsAcross(cfg, paths, a.dirs, mid.dirs, late.dirs, d.dirs);
    forall path | path != cfg.sysctlFile && path != cfg.modulesFile && path !in paths.OwnedSet() && !Exempt(cfg, paths, path)
      ensures SameAt(a.files, d.files, path)
    {
      assert SameAt(a.files, mid.files, path) && SameAt(mid.files, late.files, path) && SameAt(late.files, d.files, path);
    }
  }

  lemma DirsAcross(cfg: Paths, paths: AutomationPaths, a: set<string>, mid: set<string>, late: set<string>, d: set<string>)
    requires DirsFramed(cfg, a, mid) && mid <= late <= mid + AboveOwned(paths) && DirsFramed(cfg, late, d)
    ensures DirsConfined(cfg, paths, a, d)
  {
    hide Above, ExemptDir, AboveOwned;
  }

  class Command {
    const app: App
    const services: AutomationInstaller

    constructor (app: App, services: AutomationInstaller)
      ensures this.app == app && this.services == services
    {
      this.app, this.services := app, services;
    }

    ghost predicate Wired(input: Input) {
      && app.WellTyped(input) && services.host == app.manager.host
      && Distinct(app.manager.paths) && services.paths.Apart() && Disjoint(app.manager.paths, services.paths)
    }

    // Nothing will fail and nothing is in the way.
    ghost predicate Smooth(input: Input)
      requires Wired(input)
      reads app.manager.host
    {
      && AllOk(app.manager.host.world) && FullyReadable(app.manager.host.world) && app.manager.Ready()
      && services.initialized && services.euid == 0 && services.paths.Sound() && services.binaryOk
      && !app.manager.host.automationLocked
      && AllReplaceable(services.codec, services.paths, app.manager.host.files)
    }

    ghost predicate Calm(input: Input)
      requires Wired(input)
      reads app.manager.host
    {
      Settled(app.manager.paths, app.detector.machine, Asked(input), app.manager.host.View())
    }

    // The installer is ready and its four files can be inspected and replaced, from now on.
    ghost predicate Passes()
      reads app.manager.host
    {
      && services.initialized && services.euid == 0 && services.paths.Sound() && services.binaryOk
      && AllReplaceable(services.codec, services.paths, app.manager.host.files)
      && OkNext(4, app.manager.host.world, app.manager.host.tick)
    }

    // Nothing has been touched, and no reconcile been run.
    ghost predicate Refused(a: State, t: nat, report: ServiceReport, trace: Trace)
      reads app.manager.host
    {
      && app.manager.host.View() == a && app.manager.host.tick <= t + 4
      && report.failure.Some? && report.result == NO_RESULT && report.undoFailures == [] && !report.undone
      && report.rollback.None? && trace == Trace(0, [])
    }

    // The four files hold the rendered contents.
    ghost predicate Installed(profile: ManagedProfile)
      reads app.manager.host
    {
      hide Contents, Writes;
      Writes(app.manager.host.files, Contents(services.codec, services.paths, profile))
    }

    // Everything is as on host a; the files the very same nodes exactly if nothing that
    // was restored had a special mode.
    ghost predicate BackFrom(a: State, report: ServiceReport)
      reads app.manager.host
    {
      AsBefore(app.manager.paths, services.paths, a, app.manager.host.View(),
               NothingLost(app.manager.paths, services.paths, a, report.result.snapshotId, report.undone))
    }

    // The directories above their targets that all writes of a command came to which began
    // on host a at time t.
    ghost function CameTo(input: Input, a: State, t: nat, locked: bool, trace: Trace): set<string>
      requires Wired(input)
    {
      app.ReconcileReach(Asked(input), a, t + 4, locked, trace.mid)
      + Came(trace.tried, app.manager.host.world, trace.mid + 5)
    }

    // The whole tree is as on host a exactly if nothing that was restored had a special mode
    // and all those directories had been there.
    ghost predicate TreeBackIff(a: State, came: set<string>, report: ServiceReport)
      reads app.manager.host
    {
      var cfg, paths, h := app.manager.paths, services.paths, app.manager.host.View();
      SameFiles(cfg, paths, a, h) && SameDirs(cfg, paths, a, h) <==>
        NothingLost(cfg, paths, a, report.result.snapshotId, report.undone) && HadBeen(cfg, paths, a.dirs, came)
    }

    // Directories were only added: exactly those that the writes came to, all above the tuning
    // files after a change, all above the automation files once these are written.  Undone
    // without an error, the whole tree is back exactly if those had been there.
    ghost predicate DirectoriesFollow(input: Input, a: State, t: nat, locked: bool, report: ServiceReport, trace: Trace)
      requires Wired(input)
      reads app.manager.host
    {
      var dirs, came := app.manager.host.dirs, CameTo(input, a, t, locked, trace);
      && (Rooted(services.paths, a.files, a.dirs) ==> dirs == a.dirs + came)
      && (report.result.changed ==> BothAbove(app.manager.paths) <= dirs)
      && (report.failure.None? || (report.undone && report.failure.value.CommandFailed?) ==> AboveOwned(services.paths) <= dirs)
      && (report.failure.Some? && report.UndoneCleanly() && Rooted(services.paths, a.files, a.dirs) ==>
            TreeBackIff(a, came, report))
    }

    lemma Follow(input: Input, a: State, t: nat, locked: bool, mid: set<string>, report: ServiceReport, trace: Trace)
      requires Wired(input)
      requires mid == a.dirs + app.ReconcileReach(Asked(input), a, t + 4, locked, trace.mid)
      requires Rooted(services.paths, a.files, a.dirs) ==>
                 app.manager.host.dirs == mid + Came(trace.tried, app.manager.host.world, trace.mid + 5)
      requires report.result.changed ==> BothAbove(app.manager.paths) <= app.manager.host.dirs
      requires report.failure.None? || (report.undone && report.failure.value.CommandFailed?) ==>
                 AboveOwned(services.paths) <= app.manager.host.dirs
      requires report.failure.Some? && report.UndoneCleanly() ==> BackFrom(a, report)
      ensures DirectoriesFollow(input, a, t, locked, report, trace)
    {
      hide App.ReconcileReach, Came, BothAbove, AboveOwned, Rooted, AsBefore, NothingLost, SameFiles, SameDirs, HadBeen;
      if report.failure.Some? && report.UndoneCleanly() && Rooted(services.paths, a.files, a.dirs) {
        TreeIsBackIff(app.manager.paths, services.paths, a, app.manager.host.View(), CameTo(input, a, t, locked, trace),
                      NothingLost(app.manager.paths, services.paths, a, report.result.snapshotId, report.undone));
      }
    }

    lemma FollowAtOnce(input: Input, a: State, t: nat, locked: bool, report: ServiceReport)
      requires Wired(input) && app.manager.host.View() == a
      requires report.failure.Some? && !report.undone && !report.result.changed && BackFrom(a, report)
      ensures DirectoriesFollow(input, a, t, locked, report, Trace(0, []))
    {
      hide App.ProceedsFrom, ReachOfRun, BackFrom, DirectoriesFollow, Rooted;
      NothingCame(app.manager.host.world, 5);
      assert a.dirs == a.dirs + app.ReconcileReach(Asked(input), a, t + 4, locked, 0);
      Follow(input, a, t, locked, a.dirs, report, Trace(0, []));
    }

    // Nothing but the four files, directories and temporary files differs from host a.
    ghost predicate OnlyOwned(a: State)
      reads app.manager.host
    {
      OnlyFiles(a, app.manager.host.View()) && OthersUntouched(services.paths, a.files, app.manager.host.files)
    }

    // Success: the host is settled, the four files hold the rendered contents and say what is
    // promised, and systemd has been told.
    ghost predicate InService(input: Input, told: seq<string>)
      requires Wired(input)
      reads app.manager.host
    {
      && (FullyReadable(app.manager.host.world) ==> Calm(input))
      && (services.codec.RoundTrips() ==>
            Automated(services.codec, services.paths, app.manager.host.files, ManagedProfile(1, "sshappy-tune", Asked(input))))
      && Installed(ManagedProfile(1, "sshappy-tune", Asked(input)))
      && app.manager.host.commands == told + Enabling(3)
    }

    // serviceInstall
    method ServiceInstall(input: Input, confirm: bool) returns (report: ServiceReport, ghost trace: Trace)
      requires Wired(input)
      modifies app.manager.host`tick, app.manager.host`locked, app.manager.host`automationLocked, app.manager.host`commands,
               app.manager.host`sysctls, app.manager.host`available, app.manager.host`files, app.manager.host`dirs, app.manager.host`strays,
               app.manager.host`store, app.manager.host`latest
      ensures app.manager.host.locked == old(app.manager.host.locked)
      ensures app.manager.host.automationLocked == old(app.manager.host.automationLocked)
      // Without confirmation it refuses and does nothing at all.
      ensures !confirm ==>
                report == ServiceReport(NO_RESULT, Some(NotConfirmed), [], false, None)
                && Refused(old(app.manager.host.View()), old(app.manager.host.tick), report, trace)
                && app.manager.host.tick == old(app.manager.host.tick)
      // Where Install would refuse, it refuses first: no reconcile has been run.
      ensures !old(Passes()) ==> Refused(old(app.manager.host.View()), old(app.manager.host.tick), report, trace)
      // Failure whose undoing reports no error leaves everything as before the command, and
      // the files the very same nodes exactly if none that was restored had a special mode.
      ensures report.failure.Some? && report.UndoneCleanly() ==> BackFrom(old(app.manager.host.View()), report)
      // Directories are only added, exactly those that its writes came to; so the whole tree
      // is as before exactly if those had been there and the modes were plain.
      ensures DirectoriesFollow(input, old(app.manager.host.View()), old(app.manager.host.tick), old(app.manager.host.locked),
                                report, trace)
      // Where nothing fails, the command succeeds: it tunes a ripe host and installs, and
      // changes no tuning state of a settled one.
      ensures confirm && old(Smooth(input)) && old(Calm(input)) ==> report.failure.None? && !report.result.changed
      ensures confirm && old(Smooth(input)) && old(app.Ripe(Asked(input))) ==>
                report.failure.None? && report.result.changed
      ensures report.Consistent()
      // Success without a change has written nothing but the four files.
      ensures report.failure.None? && !report.result.changed ==> OnlyOwned(old(app.manager.host.View()))
      ensures Confined(app.manager.paths, services.paths, old(app.manager.host.View()), app.manager.host.View())
      ensures Tidy(app.manager.host.world) ==> app.manager.host.strays == old(app.manager.host.strays)
      ensures report.failure.None? ==> InService(input, old(app.manager.host.commands))
    {
      hide Settled, Confined, OthersUntouched, Writes, AsBefore, AllReplaceable, Disjoint, FullyReadable, AllOk, App.RipeOn,
           NothingLost, Kept, Tidy, Came, App.ReconcileReach, BothAbove, AboveOwned, Rooted, SameManaged, OnlyFiles,
           DirectoriesFollow, OkNext, AutomationPaths.Sound, Automated, Codec.RoundTrips, InService, OnlyOwned, SameFiles,
           SameOwned, PlainOwned, PlainModes, Confined, FullyReadable, NewProfile;
      ghost var a, t := app.manager.host.View(), app.manager.host.tick;
      Beginning(app.manager.paths, services.paths, a);
      trace := Trace(0, []);
      if !confirm {
        report := ServiceReport(NO_RESULT, Some(NotConfirmed), [], false, None);
        FollowAtOnce(input, a, t, app.manager.host.locked, report);
        return;
      }
      NewProfileIs(input);
      if AllOk(app.manager.host.world) { AllOkNext(4, app.manager.host.world, t); }
      var refused := services.PreflightInstall(NewProfile(input));
      if refused.Some? {
        report := ServiceReport(NO_RESULT, refused, [], false, None);
        FollowAtOnce(input, a, t, app.manager.host.locked, report);
        return;
      }
      report, trace := ReconcileAndInstall(input, NewProfile(input), t);
    }

    // Once confirmed and found possible: the two transactions, with their compensation.
    method ReconcileAndInstall(input: Input, profile: ManagedProfile, ghost t: nat)
      returns (report: ServiceReport, ghost trace: Trace)
      requires Wired(input) && profile == ManagedProfile(1, "sshappy-tune", Asked(input))
      requires app.manager.host.tick == t + 4 && services.Unready(true).None?
      modifies app.manager.host`tick, app.manager.host`locked, app.manager.host`automationLocked, app.manager.host`commands,
               app.manager.host`sysctls, app.manager.host`available, app.manager.host`files, app.manager.host`dirs, app.manager.host`strays,
               app.manager.host`store, app.manager.host`latest
      ensures app.manager.host.locked == old(app.manager.host.locked)
      ensures app.manager.host.automationLocked == old(app.manager.host.automationLocked)
      ensures report.failure.Some? && report.UndoneCleanly() ==> BackFrom(old(app.manager.host.View()), report)
      ensures DirectoriesFollow(input, old(app.manager.host.View()), t, old(app.manager.host.locked), report, trace)
      ensures old(Smooth(input)) && old(Calm(input)) ==> report.failure.None? && !report.result.changed
      ensures old(Smooth(input)) && old(app.Ripe(Asked(input))) ==> report.failure.None? && report.result.changed
      ensures report.Consistent()
      ensures report.failure.None? && !report.result.changed ==> OnlyOwned(old(app.manager.host.View()))
      ensures Confined(app.manager.paths, services.paths, old(app.manager.host.View()), app.manager.host.View())
      ensures Tidy(app.manager.host.world) ==> app.manager.host.strays == old(app.manager.host.strays)
      ensures report.failure.None? ==> InService(input, old(app.manager.host.commands))
    {
      hide Contents, Settled, PutBack, SameOwned, Framed, Confined, OthersUntouched, Writes, RecordOf, Outcome, AsBefore,
           AllReplaceable, BackOrReported, Disjoint, FullyReadable, AllOk, Passed, Reaches,
           BbrAvailable, PlanOf, Recommended, ProfileOf, App.RipeOn, NothingLost, Kept, Tidy, Came, App.ReconcileReach,
           BothAbove, AboveOwned, Rooted, SameFiles, SameDirs, HadBeen, App.AppliedOnce, App.ProceedsFrom, App.PlanFrom,
           SameManaged, OnlyFiles, App.Obliged, DirectoriesFollow, OkNext, AutomationPaths.Sound, Automated, Codec.RoundTrips,
           Verdict, ExpectedOn, Reasons, Enabling;
      ghost var a, locked := app.manager.host.View(), app.manager.host.locked;
      ghost var cfg, paths := app.manager.paths, services.paths;
      if FullyReadable(app.manager.host.world) { Unhidden(app.manager.host.world, app.manager.host.tick); }
      var result, failure, restoreFailures := app.ReconcileInput(profile.input);
      ghost var mid := app.manager.host.View();
      Midway(cfg, paths, a, mid);
      trace := Trace(app.manager.host.tick, []);
      NothingCame(app.manager.host.world, trace.mid + 5);
      app.ReconcileCame(profile.input, a, t + 4, locked, mid, trace.mid, result, failure, restoreFailures);
      if failure.Some? {
        if restoreFailures == [] { ReconcileUndone(cfg, paths, a, mid, result.snapshotId); }
        report := ServiceReport(result, failure, restoreFailures, false, None);
        Follow(input, a, t, locked, mid.dirs, report, trace);
        return;
      }
      StillReplaceable(services.codec, cfg, paths, a, mid);
      RootedAcross(cfg, paths, a, mid);
      ghost var tried;
      report, tried := InstallOrCompensate(profile, result, a);
      trace := trace.(tried := tried);
      Follow(input, a, t, locked, mid.dirs, report, trace);
      if report.failure.None? && Settled(cfg, app.detector.machine, profile.input, mid) {
        StillSettled(cfg, paths, app.detector.machine, profile.input, mid, app.manager.host.View());
      }
    }

    // Install after a reconcile that began on host a; if it fails, roll back what the reconcile changed.
    method InstallOrCompensate(profile: ManagedProfile, result: ReconcileResult, ghost a: State)
      returns (report: ServiceReport, ghost tried: seq<string>)
      requires Wired(profile.input)
      requires result.changed ==> BothAbove(app.manager.paths) <= app.manager.host.dirs
      requires Framed(app.manager.paths, a, app.manager.host.View())
      requires result.changed ==> RecordOf(app.manager.paths, a, app.manager.host.View(), result.snapshotId)
      requires !result.changed ==> app.manager.host.View() == a && result.snapshotId == ""
      modifies app.manager.host`tick, app.manager.host`locked, app.manager.host`automationLocked, app.manager.host`commands,
               app.manager.host`sysctls, app.manager.host`files, app.manager.host`dirs, app.manager.host`strays
      ensures app.manager.host.locked == old(app.manager.host.locked)
      ensures app.manager.host.automationLocked == old(app.manager.host.automationLocked)
      ensures report.result == result
      ensures report.failure.Some? && report.UndoneCleanly() ==> BackFrom(a, report)
      ensures Rooted(services.paths, old(app.manager.host.files), old(app.manager.host.dirs)) ==>
                app.manager.host.dirs ==
                  old(app.manager.host.dirs) + Came(tried, app.manager.host.world, old(app.manager.host.tick) + 5)
      ensures old(app.manager.host.dirs) <= app.manager.host.dirs
      ensures report.failure.None? || (report.undone && report.failure.value.CommandFailed?) ==>
                AboveOwned(services.paths) <= app.manager.host.dirs
      ensures report.rollback.Some? <==> report.failure.Some? && result.changed
      ensures result.changed ==> result.snapshotId != ""
      ensures report.failure.None? && services.codec.RoundTrips() ==>
                Automated(services.codec, services.paths, app.manager.host.files, profile)
      ensures report.failure.None? ==> app.manager.host.commands == old(app.manager.host.commands) + Enabling(3)
      ensures (AllOk(app.manager.host.world) && services.Unready(true).None? && services.Renders(profile)
               && !old(app.manager.host.automationLocked)
               && AllReplaceable(services.codec, services.paths, old(app.manager.host.files))) ==> report.failure.None?
      ensures Confined(app.manager.paths, services.paths, a, app.manager.host.View())
      ensures Tidy(app.manager.host.world) ==> app.manager.host.strays == old(app.manager.host.strays)
      ensures report.failure.None? ==>
                report.rollback.None? && OnlyOwned(old(app.manager.host.View())) && Installed(profile)
    {
      hide Contents, SameManaged, SameOwned, Framed, Confined, OthersUntouched, Writes, RecordOf, Outcome, AsBefore,
           AllReplaceable, BackOrReported, Disjoint, AllOk, Reaches, NothingLost, PlainOwned, Kept, Tidy, PutBack, Came,
           BothAbove, AboveOwned, Rooted, Accounts, SameFiles, SameTree, AutomationInstaller.TriedUpTo, SnapshotTest, First,
           Admitted, AutomationPaths.OwnedSet, IsId, SameNodes, Automated, Codec.RoundTrips, AutomationPaths.Sound,
           ToldToUndo, Enabling;
      ghost var cfg, paths, mid := app.manager.paths, services.paths, app.manager.host.View();
      if result.changed { SnapshotIdsAreNotEmpty(cfg, a, mid, result.snapshotId); }
      var installed, account := services.Install(profile);
      tried := account.tried;
      ghost var late := app.manager.host.View();
      FramedReflexive(cfg, late);
      ConfinedAcross(cfg, paths, a, mid, late, late);
      if installed.failure.None? { return ServiceReport(result, None, [], false, None), tried; }
      if result.changed && result.snapshotId != "" {
        var back := app.manager.Rollback(result.snapshotId);
        ghost var d := app.manager.host.View();
        ConfinedAcross(cfg, paths, a, mid, late, d);
        if back.NoError() && installed.restoreFailures == [] {
          Compensated(cfg, paths, a, mid, late, d, result.snapshotId, installed.undone, back);
        }
        return ServiceReport(result, installed.failure, installed.restoreFailures, installed.undone, Some(back)), tried;
      }
      if installed.restoreFailures == [] { InstallUndone(cfg, paths, a, late, installed.undone); }
      return ServiceReport(result, installed.failure, installed.restoreFailures, installed.undone, None), tried;
    }
  }

  lemma RootedAcross(cfg: Paths, paths: AutomationPaths, a: State, mid: State)
    requires Disjoint(cfg, paths) && Framed(cfg, a, mid)
    ensures Rooted(paths, a.files, a.dirs) ==> Rooted(paths, mid.files, mid.dirs)
  {
    hide MANAGED_SYSCTLS, Above;
    FramedKeepsOwned(cfg, paths, a, mid);
    forall i | 0 <= i < 4 && Rooted(paths, a.files, a.dirs)
      ensures paths.Owned()[i] in mid.files ==> Above(paths.Owned()[i]) <= mid.dirs
    {
      assert SameAt(a.files, mid.files, paths.Owned()[i]);
    }
  }

  lemma Unhidden(world: nat -> Answer, t: nat)
    requires FullyReadable(world)
    ensures world(t).hidden == {}
  {
  }

  // Before anything has happened.
  lemma Beginning(cfg: Paths, paths: AutomationPaths, a: State)
    requires Disjoint(cfg, paths)
    ensures Confined(cfg, paths, a, a) && AsBefore(cfg, paths, a, a, NothingLost(cfg, paths, a, "", false))
  {
    hide MANAGED_SYSCTLS, PlainOwned, PlainModes;
  }

  // Between the two transactions.
  lemma Midway(cfg: Paths, paths: AutomationPaths, a: State, mid: State)
    requires Disjoint(cfg, paths) && Framed(cfg, a, mid)
    ensures Confined(cfg, paths, a, mid)
  {
    hide MANAGED_SYSCTLS, ExemptPath, Above, ExemptDir, AboveOwned;
  }

  lemma StillReplaceable(codec: Codec, cfg: Paths, paths: AutomationPaths, a: State, mid: State)
    requires Disjoint(cfg, paths) && Framed(cfg, a, mid)
    ensures AllReplaceable(codec, paths, a.files) ==> AllReplaceable(codec, paths, mid.files)
  {
    hide Framed, OwnsText, SameManaged;
    FramedKeepsOwned(cfg, paths, a, mid);
    if AllReplaceable(codec, paths, a.files) {
      forall i | 0 <= i < 4 ensures Replaceable(codec, paths, mid.files, paths.Owned()[i]) {
        assert Replaceable(codec, paths, a.files, paths.Owned()[i]) && SameAt(a.files, mid.files, paths.Owned()[i]);
      }
    }
  }
}
