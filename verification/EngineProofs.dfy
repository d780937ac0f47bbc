/**
 What every step of a critical section keeps, for every behaviour of the kernel and
 the file system; and what follows for complete runs and for runs cut short.
 */
module EngineProofs {
  import opened Wrappers
  import opened Text
  import opened Sorting
  import opened Config
  import opened SnapshotId
  import opened HostState
  import opened Engine

  // ---------- vocabulary ----------

  ghost predicate IsId(id: string) {
    exists t: Stamp :: id == FormatId(t)
  }

  // The snapshot is a faithful, acceptable record of the host b.
  ghost predicate Captured(cfg: Paths, b: State, snap: Snapshot) {
    && SnapshotTest(cfg, snap)
    && TakenOf(b, snap)
    && snap.version == SNAPSHOT_VERSION
    && IsId(snap.id)
  }

  // The snapshot is stored, and it is the one `latest` names.
  predicate Durable(h: State, snap: Snapshot) {
    snap.id in h.store && h.store[snap.id] == snap && h.latest == Some(snap.id + "\n")
  }

  predicate Untouched(b: State, h: State) {
    h.sysctls == b.sysctls && h.files == b.files
  }

  predicate SameStore(b: State, h: State) {
    h.store == b.store && h.latest == b.latest
  }

  predicate Written(cfg: Paths, plan: Plan, files: map<string, Node>) {
    && cfg.sysctlFile in files && files[cfg.sysctlFile] == Regular(420, plan.config)
    && cfg.modulesFile in files && files[cfg.modulesFile] == Regular(420, MODULES_CONTENT)
  }

  // Every recommended key reads back its value, and both files hold the planned bytes.
  ghost predicate Applied(cfg: Paths, plan: Plan, h: State) {
    && Written(cfg, plan, h.files)
    && forall key | key in plan.recommendation.sysctls ::
         KeyAgrees(h.sysctls, key, plan.recommendation.sysctls[key])
  }

  // What reading the keys back gives.
  function ReadBack(sysctls: Values, keys: set<string>): Values {
    map key | key in keys && key in sysctls :: Normalize(sysctls[key])
  }

  // The verification an Apply reports: of the host it leaves if it succeeds, one with an
  // entry for every key if that is why it failed, and none otherwise.
  ghost predicate Attests(plan: Plan, h: State, failure: Option<Failure>, v: Verification) {
    var expected := plan.recommendation.sysctls;
    if failure.None? then v.ok && v == Compared(ReadBack(h.sysctls, expected.Keys), expected)
    else if failure.value.VerifyMismatch? then !v.ok && |v.checks| == |expected|
    else v == UNVERIFIED
  }

  predicate ReadsOf(sysctls: Values, got: Values) {
    forall key | key in got :: key in sysctls && got[key] == Normalize(sysctls[key])
  }

  ghost predicate Covers(got: Values, keys: seq<string>, i: nat)
    requires i <= |keys|
  {
    got.Keys == set j | 0 <= j < i :: keys[j]
  }

  ghost predicate OwnedCaptured(cfg: Paths, b: State, files: map<string, FileSnapshot>, j: nat) {
    && files.Keys == (if j == 0 then {} else if j == 1 then {cfg.sysctlFile} else {cfg.sysctlFile, cfg.modulesFile})
    && forall path | path in files :: files[path].path == path && FileTaken(b.files, path, files[path])
  }

  // Which stored record a requested identifier denotes.
  predicate Denotes(b: State, requested: string, id: string) {
    if requested == "" then b.latest.Some? && TrimEdges(b.latest.value) == id else requested == id
  }

  // Where the snapshot being restored comes from.
  ghost predicate Source(cfg: Paths, op: Op, b: State, h: State, snap: Snapshot, cause: Cause) {
    && SnapshotTest(cfg, snap)
    && match op
       case ApplyOp(plan) =>
         && cause.failure.Some? && Captured(cfg, b, snap) && Durable(h, snap)
         && Attests(plan, h, cause.failure, cause.verification)
       case RollbackOp(id) =>
         cause == REQUESTED && SameStore(b, h) && Denotes(b, id, snap.id) && Readable(b, snap.id) && b.store[snap.id] == snap
  }

  ghost predicate FilesRestored(files: map<string, Node>, snap: Snapshot, j: nat)
    requires j <= |SortedKeys(snap.files.Keys)|
  {
    forall k | 0 <= k < j ::
      FileIs(files, SortedKeys(snap.files.Keys)[k], snap.files[SortedKeys(snap.files.Keys)[k]])
  }

  // ---------- the invariant of a section that started on host b ----------

  ghost predicate Inv(cfg: Paths, op: Op, b: State, h: State, p: Proc)
    requires InRange(p)
  {
    hide SortedKeys, SnapshotTest, Agrees, Captured, Source, ReadsOf, Outcome, Written, OwnedCaptured, FilesAre,
         Denotes, Attests;
    match p
    case Modprobe(plan) => op == ApplyOp(plan) && Untouched(b, h) && SameStore(b, h)
    case CheckBbr(plan) => op == ApplyOp(plan) && Untouched(b, h) && SameStore(b, h)
    case CaptureKey(plan, _, i, got) =>
      && op == ApplyOp(plan) && Untouched(b, h) && SameStore(b, h)
      && ReadsOf(b.sysctls, got) && Covers(got, KeysOf(plan), i)
    case CaptureOwned(plan, _, got, j, files) =>
      && op == ApplyOp(plan) && Untouched(b, h) && SameStore(b, h)
      && ReadsOf(b.sysctls, got) && got.Keys == plan.recommendation.sysctls.Keys && OwnedCaptured(cfg, b, files, j)
    case StoreSnapshot(plan, snap) =>
      op == ApplyOp(plan) && Untouched(b, h) && SameStore(b, h) && Captured(cfg, b, snap)
    case StoreLatest(plan, snap) =>
      && op == ApplyOp(plan) && Untouched(b, h) && Captured(cfg, b, snap)
      && h.store == b.store[snap.id := snap] && h.latest == b.latest
    case WriteSysctl(plan, snap) =>
      op == ApplyOp(plan) && Untouched(b, h) && Captured(cfg, b, snap) && Durable(h, snap)
    case WriteModules(plan, snap) =>
      && op == ApplyOp(plan) && Captured(cfg, b, snap) && Durable(h, snap)
      && cfg.sysctlFile in h.files && h.files[cfg.sysctlFile] == Regular(420, plan.config)
    case Load(plan, snap) =>
      op == ApplyOp(plan) && Captured(cfg, b, snap) && Durable(h, snap) && Written(cfg, plan, h.files)
    case VerifyKey(plan, snap, i, actual) =>
      && op == ApplyOp(plan) && Captured(cfg, b, snap) && Durable(h, snap) && Written(cfg, plan, h.files)
      && ReadsOf(h.sysctls, actual) && Covers(actual, KeysOf(plan), i)
    case ReadLatest => op.RollbackOp? && op.id == "" && h == b
    case ReadStored(id) => op.RollbackOp? && h == b && Denotes(b, op.id, id)
    case RestoreFile(snap, cause, j, errs) =>
      Source(cfg, op, b, h, snap, cause) && (errs == [] ==> FilesRestored(h.files, snap, j))
    case RestoreKey(snap, cause, _, errs) =>
      Source(cfg, op, b, h, snap, cause) && (errs == [] ==> FilesAre(h.files, snap))
    case RecheckKey(snap, cause, i, actual) =>
      && Source(cfg, op, b, h, snap, cause) && FilesAre(h.files, snap)
      && ReadsOf(h.sysctls, actual) && Covers(actual, SortedKeys(snap.sysctls.Keys), i)
    case Finished(report) => Outcome(cfg, op, b, h, report)
  }

  // What a finished section has achieved.
  ghost predicate Outcome(cfg: Paths, op: Op, b: State, h: State, report: Report) {
    match op
    case ApplyOp(plan) =>
      && (report.failure.None? ==> report.restoreFailures == [] && Applied(cfg, plan, h) && report.snapshotId != "")
      && (if report.snapshotId == "" then Untouched(b, h)
          else exists snap :: Captured(cfg, b, snap) && Durable(h, snap) && snap.id == report.snapshotId)
      && Attests(plan, h, report.failure, report.verification)
      && (report.failure.Some? && report.restoreFailures == [] ==> PutBack(cfg, b, h, report.snapshotId))
      && Recoverable(cfg, b, h)
    case RollbackOp(id) =>
      && SameStore(b, h)
      && (report.failure.Some? ==> h == b)
      && (report.failure.None? ==> Denotes(b, id, report.snapshotId) && Readable(b, report.snapshotId))
      && (report.NoError() ==>
            && Denotes(b, id, report.snapshotId) && Readable(b, report.snapshotId)
            && SnapshotTest(cfg, b.store[report.snapshotId]) && Agrees(h, b.store[report.snapshotId]))
  }

  // Nothing has changed yet, or `latest` names a complete record of the host b.
  ghost predicate Recoverable(cfg: Paths, b: State, h: State) {
    Untouched(b, h) || exists snap :: Captured(cfg, b, snap) && Durable(h, snap)
  }

  lemma UntouchedIsSame(cfg: Paths, b: State, h: State)
    requires Untouched(b, h)
    ensures PutBack(cfg, b, h, "")
  {
  }

  // ---------- one step keeps it ----------

  lemma CoversNext(got: Values, keys: seq<string>, i: nat, value: string)
    requires i < |keys| && Covers(got, keys, i)
    ensures Covers(got[keys[i] := value], keys, i + 1)
  {
  }

  lemma CoversAll(got: Values, values: Values)
    requires Covers(got, SortedKeys(values.Keys), |SortedKeys(values.Keys)|)
    ensures got.Keys == values.Keys
  {
    var keys := SortedKeys(values.Keys);
    forall key | key in values.Keys ensures key in got.Keys {
      assert key in keys;
      var j :| 0 <= j < |keys| && keys[j] == key;
    }
  }

  // Comparing normalised readings is comparing the host.
  lemma ReadingsMeet(sysctls: Values, actual: Values, expected: Values)
    requires ReadsOf(sysctls, actual) && actual.Keys == expected.Keys && Meets(actual, expected)
    ensures forall key | key in expected :: KeyAgrees(sysctls, key, expected[key])
  {
    forall key | key in expected ensures KeyAgrees(sysctls, key, expected[key]) {
      assert KeyMeets(actual, expected, key);
      NormalizeCanonical(sysctls[key], "");
    }
  }

  lemma CaptureKeyInv(cfg: Paths, op: Op, b: State, h: State, plan: Plan, stamp: Stamp, i: nat, got: Values)
    requires op == ApplyOp(plan) && Untouched(b, h) && SameStore(b, h)
    requires i <= |KeysOf(plan)| && ReadsOf(b.sysctls, got) && Covers(got, KeysOf(plan), i)
    ensures Inv(cfg, op, b, h, AtCaptureKey(plan, stamp, i, got))
  {
    hide SortedKeys;
    if i == |KeysOf(plan)| { CoversAll(got, plan.recommendation.sysctls); }
  }

  lemma CapturedNow(cfg: Paths, b: State, stamp: Stamp, got: Values, files: map<string, FileSnapshot>)
    requires Distinct(cfg) && got.Keys == MANAGED_SYSCTLS && ReadsOf(b.sysctls, got) && OwnedCaptured(cfg, b, files, 2)
    ensures Captured(cfg, b, Snapshot(SNAPSHOT_VERSION, FormatId(stamp), got, files))
  {
    hide MANAGED_SYSCTLS, FormatId;
    var snap := Snapshot(SNAPSHOT_VERSION, FormatId(stamp), got, files);
    SnapshotTestIff(cfg, snap);
    forall key | key in got ensures KeyAgrees(b.sysctls, key, got[key]) {
      NormalizeCanonical(b.sysctls[key], "");
    }
  }

  lemma CaptureOwnedInv(cfg: Paths, op: Op, b: State, h: State, plan: Plan, stamp: Stamp, got: Values, j: nat,
                        files: map<string, FileSnapshot>)
    requires Distinct(cfg) && Admitted(op)
    requires op == ApplyOp(plan) && Untouched(b, h) && SameStore(b, h)
    requires ReadsOf(b.sysctls, got) && got.Keys == plan.recommendation.sysctls.Keys
    requires j <= 2 && OwnedCaptured(cfg, b, files, j)
    ensures InRange(AtCaptureOwned(plan, stamp, got, j, files))
    ensures Inv(cfg, op, b, h, AtCaptureOwned(plan, stamp, got, j, files))
  {
    hide MANAGED_SYSCTLS, FormatId, Normalize;
    if j == 2 {
      AllowlistTestIff(plan.recommendation.sysctls);
      CapturedNow(cfg, b, stamp, got, files);
    }
  }

  lemma IdsAreNotEmpty(id: string)
    requires IsId(id)
    ensures id != ""
  {
    var t: Stamp :| id == FormatId(t);
    IdNotEmpty(t);
  }

  lemma EndedInv(cfg: Paths, op: Op, b: State, h: State, snap: Snapshot, cause: Cause, errs: seq<Failure>)
    requires Source(cfg, op, b, h, snap, cause)
    requires errs == [] ==> Agrees(h, snap)
    ensures Inv(cfg, op, b, h, Ended(snap, cause, errs))
  {
    hide SnapshotTest, Agrees, TakenOf, SameManaged, SameNodes, PlainModes;
    if op.ApplyOp? && errs == [] {
      AgreementIsState(cfg, b, h, snap);
      IdsAreNotEmpty(snap.id);
    }
  }

  lemma RecheckInv(cfg: Paths, op: Op, b: State, h: State, snap: Snapshot, cause: Cause, i: nat, actual: Values)
    requires Source(cfg, op, b, h, snap, cause) && FilesAre(h.files, snap)
    requires i <= |SortedKeys(snap.sysctls.Keys)|
    requires ReadsOf(h.sysctls, actual) && Covers(actual, SortedKeys(snap.sysctls.Keys), i)
    ensures Inv(cfg, op, b, h, AtRecheck(snap, cause, i, actual))
  {
    hide SnapshotTest, SortedKeys, Normalize, ReadsOf, FilesAre, FileIs, KeyAgrees;
    if i == |SortedKeys(snap.sysctls.Keys)| {
      CoversAll(actual, snap.sysctls);
      if Compared(actual, snap.sysctls).ok {
        ReadingsMeet(h.sysctls, actual, snap.sysctls);
        EndedInv(cfg, op, b, h, snap, cause, []);
      } else {
        EndedInv(cfg, op, b, h, snap, cause, [RestoreMismatch]);
      }
    }
  }

  lemma RestoreKeyInv(cfg: Paths, op: Op, b: State, h: State, snap: Snapshot, cause: Cause, i: nat, errs: seq<Failure>)
    requires Source(cfg, op, b, h, snap, cause) && (errs == [] ==> FilesAre(h.files, snap))
    ensures Inv(cfg, op, b, h, AtRestoreKey(snap, cause, i, errs))
  {
    hide Source, SortedKeys, FilesAre, AtRecheck, Ended;
    if i >= |SortedKeys(snap.sysctls.Keys)| {
      if errs == [] {
        RecheckInv(cfg, op, b, h, snap, cause, 0, map[]);
      } else {
        EndedInv(cfg, op, b, h, snap, cause, errs);
      }
    }
  }

  lemma RestoreFileInv(cfg: Paths, op: Op, b: State, h: State, snap: Snapshot, cause: Cause, j: nat, errs: seq<Failure>)
    requires Source(cfg, op, b, h, snap, cause)
    requires j <= |SortedKeys(snap.files.Keys)| && (errs == [] ==> FilesRestored(h.files, snap, j))
    ensures Inv(cfg, op, b, h, AtRestoreFile(snap, cause, j, errs))
  {
    hide Source, SortedKeys, AtRestoreKey, FileIs;
    if j == |SortedKeys(snap.files.Keys)| {
      if errs == [] {
        forall path | path in snap.files ensures FileIs(h.files, path, snap.files[path]) {
          assert path in SortedKeys(snap.files.Keys);
        }
      }
      RestoreKeyInv(cfg, op, b, h, snap, cause, 0, errs);
    }
  }

  lemma RestoreInv(cfg: Paths, op: Op, b: State, h: State, snap: Snapshot, cause: Cause)
    requires Source(cfg, op, b, h, snap, cause)
    ensures Inv(cfg, op, b, h, AtRestore(cfg, snap, cause))
  {
    hide AtRestoreFile, SortedKeys;
    RestoreFileInv(cfg, op, b, h, snap, cause, 0, []);
  }

  lemma AttestedAtEnd(plan: Plan, h: State, actual: Values)
    requires ReadsOf(h.sysctls, actual) && actual.Keys == plan.recommendation.sysctls.Keys
    ensures var v := Compared(actual, plan.recommendation.sysctls);
            Attests(plan, h, if v.ok then None else Some(VerifyMismatch), v)
  {
    hide SortedKeys, Normalize, Meets;
    var expected := plan.recommendation.sysctls;
    assert actual == ReadBack(h.sysctls, expected.Keys);
    ChecksAre(actual, expected, SortedKeys(expected.Keys));
  }

  lemma VerifyInv(cfg: Paths, op: Op, b: State, h: State, plan: Plan, snap: Snapshot, i: nat, actual: Values)
    requires op == ApplyOp(plan) && Captured(cfg, b, snap) && Durable(h, snap) && Written(cfg, plan, h.files)
    requires i <= |KeysOf(plan)| && ReadsOf(h.sysctls, actual) && Covers(actual, KeysOf(plan), i)
    ensures Inv(cfg, op, b, h, AtVerify(cfg, plan, snap, i, actual))
  {
    hide SortedKeys, AtRestore, Agrees, TakenOf, SnapshotTest, Normalize, KeyAgrees, ReadsOf, IsId, Attests;
    if i == |KeysOf(plan)| {
      CoversAll(actual, plan.recommendation.sysctls);
      var v := Compared(actual, plan.recommendation.sysctls);
      AttestedAtEnd(plan, h, actual);
      IdsAreNotEmpty(snap.id);
      if v.ok {
        ReadingsMeet(h.sysctls, actual, plan.recommendation.sysctls);
        assert Applied(cfg, plan, h);
      } else {
        RestoreInv(cfg, op, b, h, snap, Cause(Some(VerifyMismatch), v));
      }
    }
  }

  lemma LoadStep(cfg: Paths, op: Op, b: State, h: State, p: Proc, a: Answer)
    requires Distinct(cfg) && Admitted(op) && InRange(p) && Inv(cfg, op, b, h, p)
    requires p.Modprobe? || p.CheckBbr?
    ensures Inv(cfg, op, b, Step(cfg, h, p, a).host, Step(cfg, h, p, a).proc)
  {
    hide SortedKeys, AtCaptureKey, PutBack, Fields, Normalize, AllowlistTest;
    var h' := Effect(cfg, h, p, a);
    if p.CheckBbr? { CaptureKeyInv(cfg, op, b, h', p.plan, a.stamp, 0, map[]); }
    UntouchedIsSame(cfg, b, h');
  }

  lemma CaptureStep(cfg: Paths, op: Op, b: State, h: State, p: Proc, a: Answer)
    requires Distinct(cfg) && Admitted(op) && InRange(p) && Inv(cfg, op, b, h, p)
    requires p.CaptureKey?
    ensures Inv(cfg, op, b, Step(cfg, h, p, a).host, Step(cfg, h, p, a).proc)
  {
    hide SortedKeys, AtCaptureKey, PutBack, Normalize, AllowlistTest;
    var key := KeysOf(p.plan)[p.i];
    var read := ReadSysctl(h, key, a);
    if read.Some? {
      CoversNext(p.got, KeysOf(p.plan), p.i, Normalize(read.value));
      CaptureKeyInv(cfg, op, b, h, p.plan, p.stamp, p.i + 1, p.got[key := Normalize(read.value)]);
    }
    UntouchedIsSame(cfg, b, h);
  }

  lemma CaptureTakes(h: State, path: string, a: Answer)
    requires CaptureOne(h, path, a).Some?
    ensures FileTaken(h.files, path, CaptureOne(h, path, a).value) && CaptureOne(h, path, a).value.path == path
  {
  }

  lemma CaptureFilesStep(cfg: Paths, op: Op, b: State, h: State, p: Proc, a: Answer)
    requires Distinct(cfg) && Admitted(op) && InRange(p) && Inv(cfg, op, b, h, p)
    requires p.CaptureOwned?
    ensures Inv(cfg, op, b, Step(cfg, h, p, a).host, Step(cfg, h, p, a).proc)
  {
    hide AllowlistTest, AtCaptureOwned, PutBack, ReadsOf, CaptureOne, FileTaken;
    UntouchedIsSame(cfg, b, h);
    var path := OwnedPath(cfg, p.j);
    var one := CaptureOne(h, path, a);
    if one.Some? {
      CaptureTakes(h, path, a);
      assert h.files == b.files;
      CaptureOwnedInv(cfg, op, b, h, p.plan, p.stamp, p.got, p.j + 1, p.files[path := one.value]);
    }
  }

  lemma StoreStep(cfg: Paths, op: Op, b: State, h: State, p: Proc, a: Answer)
    requires InRange(p) && Inv(cfg, op, b, h, p)
    requires p.StoreSnapshot? || p.StoreLatest?
    ensures Inv(cfg, op, b, Step(cfg, h, p, a).host, Step(cfg, h, p, a).proc)
  {
    hide Captured, PutBack, Leave, AtRestore, AtVerify, SortedKeys, NextRestore, NextRead, NextCapture;
    UntouchedIsSame(cfg, b, Effect(cfg, h, p, a));
  }

  lemma CommitStep(cfg: Paths, op: Op, b: State, h: State, p: Proc, a: Answer)
    requires Distinct(cfg) && InRange(p) && Inv(cfg, op, b, h, p)
    requires p.WriteSysctl? || p.WriteModules? || p.Load?
    ensures Inv(cfg, op, b, Step(cfg, h, p, a).host, Step(cfg, h, p, a).proc)
  {
    hide Agrees, SnapshotTest, AtRestore, AtVerify, AssignedKeys, IsId, TakenOf;
    var h' := Effect(cfg, h, p, a);
    if a.ok && p.Load? {
      VerifyInv(cfg, op, b, h', p.plan, p.snap, 0, map[]);
    } else if !a.ok {
      RestoreInv(cfg, op, b, h', p.snap, Because(WriteFailed(cfg.sysctlFile)));
      RestoreInv(cfg, op, b, h', p.snap, Because(WriteFailed(cfg.modulesFile)));
      RestoreInv(cfg, op, b, h', p.snap, Because(LoadFailed));
    }
  }

  lemma VerifyStep(cfg: Paths, op: Op, b: State, h: State, p: Proc, a: Answer)
    requires InRange(p) && Inv(cfg, op, b, h, p) && p.VerifyKey?
    ensures Inv(cfg, op, b, Step(cfg, h, p, a).host, Step(cfg, h, p, a).proc)
  {
    hide Agrees, TakenOf, SnapshotTest, AtRestore, AtVerify, IsId, SortedKeys, Normalize, Written;
    var key := KeysOf(p.plan)[p.i];
    var read := ReadSysctl(h, key, a);
    if read.Some? {
      CoversNext(p.actual, KeysOf(p.plan), p.i, Normalize(read.value));
      VerifyInv(cfg, op, b, h, p.plan, p.snap, p.i + 1, p.actual[key := Normalize(read.value)]);
    } else {
      RestoreInv(cfg, op, b, h, p.snap, Because(ReadFailed(key)));
    }
  }

  lemma ReadStep(cfg: Paths, op: Op, b: State, h: State, p: Proc, a: Answer)
    requires InRange(p) && Inv(cfg, op, b, h, p)
    requires p.ReadLatest? || p.ReadStored?
    ensures Inv(cfg, op, b, Step(cfg, h, p, a).host, Step(cfg, h, p, a).proc)
  {
    hide MatchesPattern, SnapshotTest, Agrees, TrimEdges, AtRestoreFile;
    if p.ReadStored? && a.ok && Readable(h, p.id) && SnapshotTest(cfg, h.store[p.id]) {
      RestoreInv(cfg, op, b, h, h.store[p.id], REQUESTED);
    }
  }

  lemma RestoreFileStep(cfg: Paths, op: Op, b: State, h: State, p: Proc, a: Answer)
    requires Distinct(cfg) && InRange(p) && Inv(cfg, op, b, h, p) && p.RestoreFile?
    ensures Inv(cfg, op, b, Step(cfg, h, p, a).host, Step(cfg, h, p, a).proc)
  {
    hide SortedKeys, AtRestoreFile, Agrees, TakenOf, SnapshotTest, Readable, IsId, FilesRestored, Leave, Chmod;
    var h' := Effect(cfg, h, p, a);
    assert Source(cfg, op, b, h', p.snap, p.cause);
    var errs := Note(p.errs, a.ok, SortedKeys(p.snap.files.Keys)[p.j]);
    if errs == [] { RestoredOneMore(cfg, h, p.snap, p.j, a); }
    RestoreFileInv(cfg, op, b, h', p.snap, p.cause, p.j + 1, errs);
  }

  lemma RestoreKeyStep(cfg: Paths, op: Op, b: State, h: State, p: Proc, a: Answer)
    requires Distinct(cfg) && InRange(p) && Inv(cfg, op, b, h, p) && p.RestoreKey?
    ensures Inv(cfg, op, b, Step(cfg, h, p, a).host, Step(cfg, h, p, a).proc)
  {
    hide SortedKeys, AtRestoreKey, TakenOf, SnapshotTest, Readable, IsId, FilesAre;
    var h' := Effect(cfg, h, p, a);
    assert Source(cfg, op, b, h', p.snap, p.cause);
    RestoreKeyInv(cfg, op, b, h', p.snap, p.cause, p.i + 1, Note(p.errs, a.ok, SortedKeys(p.snap.sysctls.Keys)[p.i]));
  }

  // Restoring one file keeps the files restored before it.
  lemma RestoredOneMore(cfg: Paths, h: State, snap: Snapshot, j: nat, a: Answer)
    requires SnapshotTest(cfg, snap) && a.ok
    requires j < |SortedKeys(snap.files.Keys)| && FilesRestored(h.files, snap, j)
    ensures FilesRestored(RestoreOwned(h, snap.files[SortedKeys(snap.files.Keys)[j]], a).files, snap, j + 1)
  {
    hide AllowlistTest, SortedKeys, RestoreOwned, FileIs;
    SortedKeysDistinct(snap.files.Keys);
    FileOperationIsLocal(h, snap.files[SortedKeys(snap.files.Keys)[j]], a);
  }

  lemma RecheckStep(cfg: Paths, op: Op, b: State, h: State, p: Proc, a: Answer)
    requires InRange(p) && Inv(cfg, op, b, h, p) && p.RecheckKey?
    ensures Inv(cfg, op, b, Step(cfg, h, p, a).host, Step(cfg, h, p, a).proc)
  {
    hide SortedKeys, AtRecheck, SnapshotTest, Source, Normalize, FilesAre;
    var key := SortedKeys(p.snap.sysctls.Keys)[p.i];
    var read := ReadSysctl(h, key, a);
    if read.Some? {
      CoversNext(p.actual, SortedKeys(p.snap.sysctls.Keys), p.i, Normalize(read.value));
      RecheckInv(cfg, op, b, h, p.snap, p.cause, p.i + 1, p.actual[key := Normalize(read.value)]);
    } else {
      EndedInv(cfg, op, b, h, p.snap, p.cause, [ReadFailed(key)]);
    }
  }

  lemma StepKeepsInv(cfg: Paths, op: Op, b: State, h: State, p: Proc, a: Answer)
    requires Distinct(cfg) && Admitted(op) && InRange(p) && Inv(cfg, op, b, h, p)
    ensures Inv(cfg, op, b, Step(cfg, h, p, a).host, Step(cfg, h, p, a).proc)
  {
    hide Inv, InRange, Admitted, Step;
    match p
    case Modprobe(_) => LoadStep(cfg, op, b, h, p, a);
    case CheckBbr(_) => LoadStep(cfg, op, b, h, p, a);
    case CaptureKey(_, _, _, _) => CaptureStep(cfg, op, b, h, p, a);
    case CaptureOwned(_, _, _, _, _) => CaptureFilesStep(cfg, op, b, h, p, a);
    case StoreSnapshot(_, _) => StoreStep(cfg, op, b, h, p, a);
    case StoreLatest(_, _) => StoreStep(cfg, op, b, h, p, a);
    case WriteSysctl(_, _) => CommitStep(cfg, op, b, h, p, a);
    case WriteModules(_, _) => CommitStep(cfg, op, b, h, p, a);
    case Load(_, _) => CommitStep(cfg, op, b, h, p, a);
    case VerifyKey(_, _, _, _) => VerifyStep(cfg, op, b, h, p, a);
    case ReadLatest => ReadStep(cfg, op, b, h, p, a);
    case ReadStored(_) => ReadStep(cfg, op, b, h, p, a);
    case RestoreFile(_, _, _, _) => RestoreFileStep(cfg, op, b, h, p, a);
    case RestoreKey(_, _, _, _) => RestoreKeyStep(cfg, op, b, h, p, a);
    case RecheckKey(_, _, _, _) => RecheckStep(cfg, op, b, h, p, a);
    case Finished(_) => FinishedStep(cfg, h, p, a);
  }

  lemma FirstInv(cfg: Paths, op: Op, b: State)
    ensures InRange(First(op)) && Inv(cfg, op, b, b, First(op))
  {
    hide MatchesPattern, TrimEdges, SortedKeys;
  }

  // From its first step on, under every schedule of answers, a section keeps the invariant.
  lemma {:induction false} ExecKeepsInv(cfg: Paths, op: Op, b: State, world: nat -> Answer, t: nat, n: nat)
    requires Distinct(cfg) && Admitted(op)
    ensures InRange(First(op))
    ensures var m := Exec(cfg, b, First(op), world, t, n); Inv(cfg, op, b, m.host, m.proc)
  {
    hide Inv, Admitted, Step, InRange;
    FirstInv(cfg, op, b);
    if n > 0 {
      ExecKeepsInv(cfg, op, b, world, t, n - 1);
      var m := Exec(cfg, b, First(op), world, t, n - 1);
      StepKeepsInv(cfg, op, b, m.host, m.proc, world(t + n - 1));
    }
  }
}
