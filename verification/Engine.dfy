/**
 One Apply or Rollback inside its critical section, one runner call or file
 operation at a time.  A process death is a run that stops early.
 */
module Engine {
  import opened Wrappers
  import opened Text
  import opened Sorting
  import opened Recommend
  import opened Config
  import opened SnapshotId
  import opened HostState

  datatype Failure =
    | NotReady | NotRoot | OutsideAllowlist | LockBusy
    | ModuleLoadFailed | BbrMissing
    | CaptureFailed(item: string) | SaveFailed(item: string)
    | WriteFailed(path: string) | LoadFailed | ReadFailed(key: string) | VerifyMismatch
    | LatestUnreadable | InvalidId | SnapshotUnreadable | SnapshotInconsistent
    | UnsafeSnapshot | RestoreFailed(item: string) | RestoreMismatch
    | DetectFailed | NotRecommended(refusal: Refusal) | InspectFailed(path: string) | MalformedConfig
    | NotConfirmed | NotOwned(path: string) | RemoveFailed(path: string) | CommandFailed(message: string)

  // What a finished section tells its caller: the returned fields, the primary
  // error, and the errors of restoring.
  datatype Report = Report(
    snapshotId: string, verification: Verification, failure: Option<Failure>, restoreFailures: seq<Failure>)
  {
    predicate NoError() { failure.None? && restoreFailures == [] }
  }

  // Why a restore runs: the failure that started it, if any, and the verification so far.
  datatype Cause = Cause(failure: Option<Failure>, verification: Verification)

  function Because(failure: Failure): Cause {
    Cause(Some(failure), UNVERIFIED)
  }

  const REQUESTED := Cause(None, UNVERIFIED)

  datatype Op = ApplyOp(plan: Plan) | RollbackOp(id: string)

  datatype Proc =
    | Modprobe(plan: Plan)
    | CheckBbr(plan: Plan)
    | CaptureKey(plan: Plan, stamp: Stamp, i: nat, got: Values)
    | CaptureOwned(plan: Plan, stamp: Stamp, got: Values, j: nat, files: map<string, FileSnapshot>)
    | StoreSnapshot(plan: Plan, snap: Snapshot)
    | StoreLatest(plan: Plan, snap: Snapshot)
    | WriteSysctl(plan: Plan, snap: Snapshot)
    | WriteModules(plan: Plan, snap: Snapshot)
    | Load(plan: Plan, snap: Snapshot)
    | VerifyKey(plan: Plan, snap: Snapshot, i: nat, actual: Values)
    | ReadLatest
    | ReadStored(id: string)
    | RestoreFile(snap: Snapshot, cause: Cause, j: nat, errs: seq<Failure>)
    | RestoreKey(snap: Snapshot, cause: Cause, i: nat, errs: seq<Failure>)
    | RecheckKey(snap: Snapshot, cause: Cause, i: nat, actual: Values)
    | Finished(report: Report)

  ghost function KeysOf(plan: Plan): seq<string> {
    SortedKeys(plan.recommendation.sysctls.Keys)
  }

  ghost predicate InRange(p: Proc) {
    match p
    case CaptureKey(plan, _, i, _) => i < |KeysOf(plan)|
    case CaptureOwned(_, _, _, j, _) => j < 2
    case VerifyKey(plan, _, i, _) => i < |KeysOf(plan)|
    case RestoreFile(snap, _, j, _) => j < |SortedKeys(snap.files.Keys)|
    case RestoreKey(snap, _, i, _) => i < |SortedKeys(snap.sysctls.Keys)|
    case RecheckKey(snap, _, i, _) => i < |SortedKeys(snap.sysctls.Keys)|
    case _ => true
  }

  // ---------- where control goes next ----------

  function OwnedPath(cfg: Paths, j: nat): string {
    if j == 0 then cfg.sysctlFile else cfg.modulesFile
  }

  function Failed(snapshotId: string, failure: Failure): Proc {
    Finished(Report(snapshotId, UNVERIFIED, Some(failure), []))
  }

  ghost function AtCaptureKey(plan: Plan, stamp: Stamp, i: nat, got: Values): (p: Proc)
    ensures InRange(p)
  {
    if i < |KeysOf(plan)| then CaptureKey(plan, stamp, i, got) else AtCaptureOwned(plan, stamp, got, 0, map[])
  }

  function AtCaptureOwned(plan: Plan, stamp: Stamp, got: Values, j: nat, files: map<string, FileSnapshot>): Proc {
    if j < 2 then CaptureOwned(plan, stamp, got, j, files)
    else StoreSnapshot(plan, Snapshot(SNAPSHOT_VERSION, FormatId(stamp), got, files))
  }

  ghost function AtVerify(cfg: Paths, plan: Plan, snap: Snapshot, i: nat, actual: Values): (p: Proc)
    ensures InRange(p)
  {
    if i < |KeysOf(plan)| then VerifyKey(plan, snap, i, actual)
    else
      var v := Compared(actual, plan.recommendation.sysctls);
      if v.ok then Finished(Report(snap.id, v, None, []))
      else AtRestore(cfg, snap, Cause(Some(VerifyMismatch), v))
  }

  function Ended(snap: Snapshot, cause: Cause, errs: seq<Failure>): (p: Proc)
    ensures p.Finished?
  {
    Finished(Report(snap.id, cause.verification, cause.failure, errs))
  }

  ghost function AtRestore(cfg: Paths, snap: Snapshot, cause: Cause): (p: Proc)
    ensures InRange(p)
  {
    if SnapshotTest(cfg, snap) then AtRestoreFile(snap, cause, 0, []) else Ended(snap, cause, [UnsafeSnapshot])
  }

  ghost function AtRestoreFile(snap: Snapshot, cause: Cause, j: nat, errs: seq<Failure>): (p: Proc)
    ensures InRange(p)
  {
    if j < |SortedKeys(snap.files.Keys)| then RestoreFile(snap, cause, j, errs) else AtRestoreKey(snap, cause, 0, errs)
  }

  ghost function AtRestoreKey(snap: Snapshot, cause: Cause, i: nat, errs: seq<Failure>): (p: Proc)
    ensures InRange(p)
  {
    if i < |SortedKeys(snap.sysctls.Keys)| then RestoreKey(snap, cause, i, errs)
    else if errs == [] then AtRecheck(snap, cause, 0, map[])
    else Ended(snap, cause, errs)
  }

  ghost function AtRecheck(snap: Snapshot, cause: Cause, i: nat, actual: Values): (p: Proc)
    ensures InRange(p)
  {
    if i < |SortedKeys(snap.sysctls.Keys)| then RecheckKey(snap, cause, i, actual)
    else Ended(snap, cause, if Compared(actual, snap.sysctls).ok then [] else [RestoreMismatch])
  }

  // readSnapshot: what can be wrong with an identifier and the record under it.
  predicate Readable(h: State, id: string) {
    MatchesPattern(id) && id in h.store && h.store[id].version == SNAPSHOT_VERSION && h.store[id].id == id
  }

  // ---------- one step ----------

  datatype Moment = Moment(host: State, proc: Proc)

  // What one operation does to the host.
  ghost function Effect(cfg: Paths, h: State, p: Proc, a: Answer): State
    requires InRange(p)
  {
    match p
    case Modprobe(plan) => h.(available := a.text)
    case StoreSnapshot(plan, snap) => SaveSnapshot(h, snap, a)
    case StoreLatest(plan, snap) => SaveLatest(h, snap.id, a)
    case WriteSysctl(plan, snap) => PutFile(h, cfg.sysctlFile, plan.config, 420, a)
    case WriteModules(plan, snap) => PutFile(h, cfg.modulesFile, MODULES_CONTENT, 420, a)
    case Load(plan, snap) => LoadConfig(h, cfg.sysctlFile, a)
    case RestoreFile(snap, cause, j, errs) => RestoreOwned(h, snap.files[SortedKeys(snap.files.Keys)[j]], a)
    case RestoreKey(snap, cause, i, errs) => AssignSysctl(h, SortedKeys(snap.sysctls.Keys)[i], a)
    case _ => h
  }

  // Where the process goes from there.
  ghost function Next(cfg: Paths, h: State, p: Proc, a: Answer): (q: Proc)
    requires InRange(p)
    ensures InRange(q)
  {
    hide SnapshotTest, MatchesPattern, Fields, TrimEdges, Normalize, AtCaptureKey, AtVerify, AtRestore,
         AtRestoreFile, AtRestoreKey, AtRecheck, SortedKeys;
    match p
    case Modprobe(_) | CheckBbr(_) | CaptureKey(_, _, _, _) | CaptureOwned(_, _, _, _, _) => NextCapture(cfg, h, p, a)
    case RestoreFile(_, _, _, _) | RestoreKey(_, _, _, _) | RecheckKey(_, _, _, _) => NextRestore(h, p, a)
    case ReadLatest | ReadStored(_) => NextRead(cfg, h, p, a)
    case Finished(_) => p
    case _ => NextCommit(cfg, h, p, a)
  }

  ghost function NextCapture(cfg: Paths, h: State, p: Proc, a: Answer): (q: Proc)
    requires p.Modprobe? || p.CheckBbr? || p.CaptureKey? || p.CaptureOwned?
    requires InRange(p)
    ensures InRange(q)
  {
    hide SnapshotTest, MatchesPattern, Fields, TrimEdges, Normalize, AtCaptureKey, AtVerify, AtRestore,
         AtRestoreFile, AtRestoreKey, AtRecheck, SortedKeys;
    match p
    case Modprobe(plan) => if a.ok then CheckBbr(plan) else Failed("", ModuleLoadFailed)
    case CheckBbr(plan) =>
      if a.ok && WordPresent(h.available, "bbr") then AtCaptureKey(plan, a.stamp, 0, map[]) else Failed("", BbrMissing)
    case CaptureKey(plan, stamp, i, got) =>
      var key := KeysOf(plan)[i];
      (match ReadSysctl(h, key, a)
       case None => Failed("", CaptureFailed(key))
       case Some(value) => AtCaptureKey(plan, stamp, i + 1, got[key := Normalize(value)]))
    case CaptureOwned(plan, stamp, got, j, files) =>
      var path := OwnedPath(cfg, j);
      (match CaptureOne(h, path, a)
       case None => Failed("", CaptureFailed(path))
       case Some(file) => AtCaptureOwned(plan, stamp, got, j + 1, files[path := file]))
  }

  ghost function NextCommit(cfg: Paths, h: State, p: Proc, a: Answer): (q: Proc)
    requires p.StoreSnapshot? || p.StoreLatest? || p.WriteSysctl? || p.WriteModules? || p.Load? || p.VerifyKey?
    requires InRange(p)
    ensures InRange(q)
  {
    hide SnapshotTest, MatchesPattern, Fields, TrimEdges, Normalize, AtCaptureKey, AtVerify, AtRestore,
         AtRestoreFile, AtRestoreKey, AtRecheck, SortedKeys;
    match p
    case StoreSnapshot(plan, snap) => if a.ok then StoreLatest(plan, snap) else Failed("", SaveFailed(snap.id))
    case StoreLatest(plan, snap) => if a.ok then WriteSysctl(plan, snap) else Failed("", SaveFailed("latest"))
    case WriteSysctl(plan, snap) =>
      if a.ok then WriteModules(plan, snap) else AtRestore(cfg, snap, Because(WriteFailed(cfg.sysctlFile)))
    case WriteModules(plan, snap) =>
      if a.ok then Load(plan, snap) else AtRestore(cfg, snap, Because(WriteFailed(cfg.modulesFile)))
    case Load(plan, snap) =>
      if a.ok then AtVerify(cfg, plan, snap, 0, map[]) else AtRestore(cfg, snap, Because(LoadFailed))
    case VerifyKey(plan, snap, i, actual) =>
      var key := KeysOf(plan)[i];
      (match ReadSysctl(h, key, a)
       case None => AtRestore(cfg, snap, Because(ReadFailed(key)))
       case Some(value) => AtVerify(cfg, plan, snap, i + 1, actual[key := Normalize(value)]))
  }

  ghost function NextRead(cfg: Paths, h: State, p: Proc, a: Answer): (q: Proc)
    requires p.ReadLatest? || p.ReadStored?
    ensures InRange(q)
  {
    hide SnapshotTest, MatchesPattern, Fields, TrimEdges, Normalize, AtCaptureKey, AtVerify, AtRestore,
         AtRestoreFile, AtRestoreKey, AtRecheck, SortedKeys;
    match p
    case ReadLatest =>
      if a.ok && h.latest.Some? then AtReadStored(TrimEdges(h.latest.value)) else Failed("", LatestUnreadable)
    case ReadStored(id) =>
      if !a.ok || id !in h.store then Failed("", SnapshotUnreadable)
      else if !Readable(h, id) then Failed("", SnapshotInconsistent)
      else AtRestore(cfg, h.store[id], REQUESTED)
  }

  // A restore goes on past a failing item and remembers it.
  function Note(errs: seq<Failure>, ok: bool, item: string): seq<Failure> {
    if ok then errs else errs + [RestoreFailed(item)]
  }

  ghost function NextRestore(h: State, p: Proc, a: Answer): (q: Proc)
    requires p.RestoreFile? || p.RestoreKey? || p.RecheckKey?
    requires InRange(p)
    ensures InRange(q)
  {
    hide SnapshotTest, MatchesPattern, Fields, TrimEdges, Normalize, AtCaptureKey, AtVerify, AtRestore,
         AtRestoreFile, AtRestoreKey, AtRecheck, SortedKeys;
    match p
    case RestoreFile(snap, cause, j, errs) =>
      AtRestoreFile(snap, cause, j + 1, Note(errs, a.ok, SortedKeys(snap.files.Keys)[j]))
    case RestoreKey(snap, cause, i, errs) =>
      AtRestoreKey(snap, cause, i + 1, Note(errs, a.ok, SortedKeys(snap.sysctls.Keys)[i]))
    case RecheckKey(snap, cause, i, actual) =>
      var key := SortedKeys(snap.sysctls.Keys)[i];
      (match ReadSysctl(h, key, a)
       case None => Ended(snap, cause, [ReadFailed(key)])
       case Some(value) => AtRecheck(snap, cause, i + 1, actual[key := Normalize(value)]))
  }

  ghost function Step(cfg: Paths, h: State, p: Proc, a: Answer): (r: Moment)
    requires InRange(p)
    ensures InRange(r.proc)
  {
    Moment(Effect(cfg, h, p, a), Next(cfg, h, p, a))
  }

  function AtReadStored(id: string): Proc {
    if MatchesPattern(id) then ReadStored(id) else Failed("", InvalidId)
  }

  // The first step inside the lock.
  function First(op: Op): Proc {
    match op
    case ApplyOp(plan) => Modprobe(plan)
    case RollbackOp(id) => if id == "" then ReadLatest else AtReadStored(id)
  }

  // What is tested before the lock is asked for.
  predicate Admitted(op: Op) {
    op.ApplyOp? ==> AllowlistTest(op.plan.recommendation.sysctls)
  }

  // n steps from a configuration, each under its own answer.
  ghost function Exec(cfg: Paths, h: State, p: Proc, world: nat -> Answer, t: nat, n: nat): (r: Moment)
    requires InRange(p)
    ensures InRange(r.proc)
  {
    if n == 0 then Moment(h, p)
    else
      var before := Exec(cfg, h, p, world, t, n - 1);
      Step(cfg, before.host, before.proc, world(t + n - 1))
  }

  lemma {:induction false} ExecCompose(cfg: Paths, h: State, p: Proc, world: nat -> Answer, t: nat, m: nat, n: nat)
    requires InRange(p)
    ensures var mid := Exec(cfg, h, p, world, t, m);
            Exec(cfg, mid.host, mid.proc, world, t + m, n) == Exec(cfg, h, p, world, t, m + n)
  {
    hide Step, InRange;
    if n > 0 { ExecCompose(cfg, h, p, world, t, m, n - 1); }
  }

  lemma ExecNext(cfg: Paths, h: State, p: Proc, world: nat -> Answer, t: nat, n: nat)
    requires InRange(p)
    ensures Exec(cfg, h, p, world, t, 0) == Moment(h, p)
    ensures var m := Exec(cfg, h, p, world, t, n);
            Exec(cfg, h, p, world, t, n + 1) == Step(cfg, m.host, m.proc, world(t + n))
  {
    hide InRange, Step;
  }

  // From h and p at time t, the answers of the world lead to m at time u.
  ghost predicate Reaches(cfg: Paths, h: State, p: Proc, world: nat -> Answer, t: nat, m: Moment, u: nat)
    requires InRange(p)
  {
    t <= u && Exec(cfg, h, p, world, t, u - t) == m
  }

  lemma ReachesStart(cfg: Paths, h: State, p: Proc, world: nat -> Answer, t: nat)
    requires InRange(p)
    ensures Reaches(cfg, h, p, world, t, Moment(h, p), t)
  {
    hide InRange, Step;
  }

  lemma ReachesNext(cfg: Paths, h: State, p: Proc, world: nat -> Answer, t: nat, m: Moment, u: nat)
    requires InRange(p) && Reaches(cfg, h, p, world, t, m, u)
    ensures InRange(m.proc)
    ensures Reaches(cfg, h, p, world, t, Step(cfg, m.host, m.proc, world(u)), u + 1)
  {
    hide InRange, Step;
    ExecNext(cfg, h, p, world, t, u - t);
  }

  lemma ReachesTrans(cfg: Paths, h: State, p: Proc, world: nat -> Answer, t: nat, m: Moment, u: nat, l: Moment, v: nat)
    requires InRange(p) && Reaches(cfg, h, p, world, t, m, u)
    requires InRange(m.proc) && Reaches(cfg, m.host, m.proc, world, u, l, v)
    ensures Reaches(cfg, h, p, world, t, l, v)
  {
    hide InRange, Step;
    ExecCompose(cfg, h, p, world, t, u - t, v - u);
  }

  lemma FinishedStep(cfg: Paths, h: State, p: Proc, a: Answer)
    requires p.Finished?
    ensures Step(cfg, h, p, a) == Moment(h, p)
  {
  }

  lemma {:induction false} FinishedStays(cfg: Paths, h: State, p: Proc, world: nat -> Answer, t: nat, m: nat, n: nat)
    requires InRange(p) && m <= n && Exec(cfg, h, p, world, t, m).proc.Finished?
    ensures Exec(cfg, h, p, world, t, n) == Exec(cfg, h, p, world, t, m)
  {
    hide InRange, Step;
    if m < n {
      FinishedStays(cfg, h, p, world, t, m, n - 1);
      var last := Exec(cfg, h, p, world, t, n - 1);
      FinishedStep(cfg, last.host, last.proc, world(t + n - 1));
    }
  }

  // ---------- single operations inside the loops ----------

  lemma CaptureKeyOperation(cfg: Paths, h: State, plan: Plan, stamp: Stamp, i: nat, got: Values, a: Answer)
    requires i < |KeysOf(plan)|
    ensures Step(cfg, h, AtCaptureKey(plan, stamp, i, got), a) ==
            Moment(h, if ReadSysctl(h, KeysOf(plan)[i], a).None? then Failed("", CaptureFailed(KeysOf(plan)[i]))
                      else AtCaptureKey(plan, stamp, i + 1, got[KeysOf(plan)[i] := Normalize(h.sysctls[KeysOf(plan)[i]])]))
  {
    hide SortedKeys, AtCaptureOwned, Normalize;
  }

  lemma CaptureOwnedOperation(cfg: Paths, h: State, plan: Plan, stamp: Stamp, got: Values, j: nat,
                              files: map<string, FileSnapshot>, a: Answer)
    requires j < 2
    ensures InRange(AtCaptureOwned(plan, stamp, got, j, files))
    ensures Step(cfg, h, AtCaptureOwned(plan, stamp, got, j, files), a) ==
            Moment(h, if CaptureOne(h, OwnedPath(cfg, j), a).None? then Failed("", CaptureFailed(OwnedPath(cfg, j)))
                      else AtCaptureOwned(plan, stamp, got, j + 1, files[OwnedPath(cfg, j) := CaptureOne(h, OwnedPath(cfg, j), a).value]))
  {
    hide FormatId, CaptureOne;
  }

  lemma VerifyKeyOperation(cfg: Paths, h: State, plan: Plan, snap: Snapshot, i: nat, actual: Values, a: Answer)
    requires i < |KeysOf(plan)|
    ensures Step(cfg, h, AtVerify(cfg, plan, snap, i, actual), a) ==
            Moment(h, if ReadSysctl(h, KeysOf(plan)[i], a).None?
                      then AtRestore(cfg, snap, Because(ReadFailed(KeysOf(plan)[i])))
                      else AtVerify(cfg, plan, snap, i + 1, actual[KeysOf(plan)[i] := Normalize(h.sysctls[KeysOf(plan)[i]])]))
  {
    hide SortedKeys, AtRestore, Normalize, Compared;
  }

  lemma RecheckKeyOperation(cfg: Paths, h: State, snap: Snapshot, cause: Cause, i: nat, actual: Values, a: Answer)
    requires i < |SortedKeys(snap.sysctls.Keys)|
    ensures var key := SortedKeys(snap.sysctls.Keys)[i];
            Step(cfg, h, AtRecheck(snap, cause, i, actual), a) ==
            Moment(h, if ReadSysctl(h, key, a).None? then Ended(snap, cause, [ReadFailed(key)])
                      else AtRecheck(snap, cause, i + 1, actual[key := Normalize(h.sysctls[key])]))
  {
    hide SortedKeys, Normalize, Compared, Ended;
  }
}
