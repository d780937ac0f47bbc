/**
 What the undo log guarantees: all or nothing, recovery from a death at any point,
 best-effort restoring, and a frame around everything the tool may change.
 */
module Recovery {
  import opened Text
  import opened Sorting
  import opened Config
  import opened SnapshotId
  import opened HostState
  import opened Engine
  import opened EngineProofs

  // ---------- all or nothing ----------

  // Whatever the kernel stores and whichever operations fail: an Apply without error
  // has applied everything; one that fails without a restore error has put everything back,
  // the two files to the very same nodes exactly if no mode had a bit above the permissions
  // or no snapshot was reached.
  lemma ApplyAllOrNothing(cfg: Paths, plan: Plan, b: State, world: nat -> Answer, t: nat, n: nat)
    requires Distinct(cfg) && AllowlistTest(plan.recommendation.sysctls)
    requires Exec(cfg, b, Modprobe(plan), world, t, n).proc.Finished?
    ensures var m := Exec(cfg, b, Modprobe(plan), world, t, n);
            && (m.proc.report.NoError() ==> Applied(cfg, plan, m.host))
            && (!m.proc.report.NoError() && m.proc.report.restoreFailures == [] ==>
                  PutBack(cfg, b, m.host, m.proc.report.snapshotId))
  {
    hide Exec, Applied, PutBack, Recoverable, AllowlistTest;
    ExecKeepsInv(cfg, ApplyOp(plan), b, world, t, n);
  }

  // A Rollback without error has put the host into the state of the snapshot it names.
  lemma RollbackRestores(cfg: Paths, id: string, b: State, world: nat -> Answer, t: nat, n: nat)
    requires Distinct(cfg) && InRange(First(RollbackOp(id)))
    requires Exec(cfg, b, First(RollbackOp(id)), world, t, n).proc.Finished?
    ensures var m := Exec(cfg, b, First(RollbackOp(id)), world, t, n);
            m.proc.report.NoError() ==>
              && Denotes(b, id, m.proc.report.snapshotId)
              && m.proc.report.snapshotId in b.store
              && SnapshotTest(cfg, b.store[m.proc.report.snapshotId])
              && Agrees(m.host, b.store[m.proc.report.snapshotId])
              && SameStore(b, m.host)
  {
    hide Exec, Agrees, SnapshotTest, MatchesPattern, TrimEdges;
    ExecKeepsInv(cfg, RollbackOp(id), b, world, t, n);
  }

  // So a host whose record it is comes back, its two files as the very same nodes exactly
  // if no mode had a bit above the permissions.
  lemma RollbackRestoresNodesIff(cfg: Paths, id: string, taken: State, b: State, world: nat -> Answer, t: nat, n: nat)
    requires Distinct(cfg) && InRange(First(RollbackOp(id)))
    requires var m := Exec(cfg, b, First(RollbackOp(id)), world, t, n);
             && m.proc.Finished? && m.proc.report.NoError()
             && m.proc.report.snapshotId in b.store && TakenOf(taken, b.store[m.proc.report.snapshotId])
    ensures var h := Exec(cfg, b, First(RollbackOp(id)), world, t, n).host;
            SameManaged(cfg, taken, h) && (SameNodes(cfg, taken, h) <==> PlainModes(cfg, taken))
  {
    hide Exec, Agrees, TakenOf, SnapshotTest, First, SameManaged, SameNodes, PlainModes, InRange, Denotes;
    RollbackRestores(cfg, id, b, world, t, n);
    var m := Exec(cfg, b, First(RollbackOp(id)), world, t, n);
    AgreementIsState(cfg, taken, m.host, b.store[m.proc.report.snapshotId]);
  }

  // ---------- death at any point ----------

  // The pointer written for a captured snapshot leads back to it exactly as long
  // as its clock stays within four-digit years.
  lemma LatestLeadsBack(cfg: Paths, b: State, h: State, snap: Snapshot, t: Stamp)
    requires Captured(cfg, b, snap) && Durable(h, snap) && snap.id == FormatId(t)
    ensures Denotes(h, "", snap.id)
    ensures Readable(h, snap.id) <==> t.year <= 9999
  {
    hide Agrees, SnapshotTest, FormatId, TrimEdges, MatchesPattern;
    LatestRoundTrip(t);
    IdAcceptedIff(t);
  }

  // An Apply cut short after any number of steps leaves the host either untouched, or
  // such that a Rollback of the latest snapshot which reports no error undoes it.
  lemma CrashRecovery(cfg: Paths, plan: Plan, b: State, world: nat -> Answer, t: nat, n: nat,
                      later: nat -> Answer, u: nat, k: nat)
    requires Distinct(cfg) && AllowlistTest(plan.recommendation.sysctls)
    ensures InRange(First(RollbackOp("")))
    ensures var cut := Exec(cfg, b, Modprobe(plan), world, t, n).host;
            var back := Exec(cfg, cut, First(RollbackOp("")), later, u, k);
            || Untouched(b, cut)
            || (back.proc.Finished? && back.proc.report.NoError() ==>
                  && SameManaged(cfg, b, back.host)
                  && (SameNodes(cfg, b, back.host) <==> PlainModes(cfg, b)))
  {
    hide Exec, SameManaged, SameNodes, PlainModes, AllowlistTest, Agrees, SnapshotTest, TrimEdges, MatchesPattern, FormatId;
    ExecKeepsInv(cfg, ApplyOp(plan), b, world, t, n);
    var m := Exec(cfg, b, Modprobe(plan), world, t, n);
    RecoverableThroughout(cfg, ApplyOp(plan), b, m.host, m.proc);
    FirstInv(cfg, RollbackOp(""), m.host);
    var back := Exec(cfg, m.host, First(RollbackOp("")), later, u, k);
    if !Untouched(b, m.host) && back.proc.Finished? && back.proc.report.NoError() {
      var snap :| Captured(cfg, b, snap) && Durable(m.host, snap);
      var stamp: Stamp :| snap.id == FormatId(stamp);
      LatestLeadsBack(cfg, b, m.host, snap, stamp);
      ExecKeepsInv(cfg, RollbackOp(""), m.host, later, u, k);
      AgreementIsState(cfg, b, back.host, snap);
    }
  }

  // Write-ahead: at every point of an Apply nothing has changed yet, or `latest`
  // names a complete record of the host as it was.
  lemma RecoverableThroughout(cfg: Paths, op: Op, b: State, h: State, p: Proc)
    requires op.ApplyOp? && InRange(p) && Inv(cfg, op, b, h, p)
    ensures Recoverable(cfg, b, h)
  {
    hide Captured, SortedKeys, SnapshotTest, Agrees;
    match p
    case WriteSysctl(_, snap) => assert Captured(cfg, b, snap) && Durable(h, snap);
    case WriteModules(_, snap) => assert Captured(cfg, b, snap) && Durable(h, snap);
    case Load(_, snap) => assert Captured(cfg, b, snap) && Durable(h, snap);
    case VerifyKey(_, snap, _, _) => assert Captured(cfg, b, snap) && Durable(h, snap);
    case RestoreFile(snap, _, _, _) => assert Captured(cfg, b, snap) && Durable(h, snap);
    case RestoreKey(snap, _, _, _) => assert Captured(cfg, b, snap) && Durable(h, snap);
    case RecheckKey(snap, _, _, _) => assert Captured(cfg, b, snap) && Durable(h, snap);
    case _ =>
  }

  // ---------- self-acceptance ----------

  // Snapshots the tool is about to store pass its own test exactly when the two
  // owned files are distinct paths.
  lemma SelfAcceptance(cfg: Paths, plan: Plan, b: State, world: nat -> Answer, t: nat, n: nat)
    requires AllowlistTest(plan.recommendation.sysctls)
    requires Exec(cfg, b, Modprobe(plan), world, t, n).proc.StoreSnapshot?
    ensures SnapshotTest(cfg, Exec(cfg, b, Modprobe(plan), world, t, n).proc.snap) <==> Distinct(cfg)
  {
    hide Exec, AllowlistTest;
    var snap := Exec(cfg, b, Modprobe(plan), world, t, n).proc.snap;
    SnapshotTestIff(cfg, snap);
    if Distinct(cfg) { ExecKeepsInv(cfg, ApplyOp(plan), b, world, t, n); }
  }

  // ---------- restoring is best effort ----------

  ghost function FileItems(snap: Snapshot): seq<string> { SortedKeys(snap.files.Keys) }

  ghost function KeyItems(snap: Snapshot): seq<string> { SortedKeys(snap.sysctls.Keys) }

  // The errors of the first n operations over the items, in order.
  ghost function ErrorsOf(items: seq<string>, world: nat -> Answer, t: nat, n: nat): seq<Failure>
    requires n <= |items|
  {
    if n == 0 then [] else Note(ErrorsOf(items, world, t, n - 1), world(t + n - 1).ok, items[n - 1])
  }

  // Every file whose operation did not fail is as the snapshot says.
  ghost predicate FilesTried(files: map<string, Node>, snap: Snapshot, world: nat -> Answer, t: nat, n: nat)
    requires n <= |FileItems(snap)|
  {
    forall k | 0 <= k < n && world(t + k).ok :: FileIs(files, FileItems(snap)[k], snap.files[FileItems(snap)[k]])
  }

  // Every key whose assignment was carried out honestly has the snapshot's value.
  ghost predicate KeysTried(sysctls: Values, snap: Snapshot, world: nat -> Answer, t: nat, n: nat)
    requires n <= |KeyItems(snap)|
  {
    forall k | 0 <= k < n && Honest(KeyItems(snap)[k], snap.sysctls[KeyItems(snap)[k]], world(t + k)) ::
      KeyAgrees(sysctls, KeyItems(snap)[k], snap.sysctls[KeyItems(snap)[k]])
  }

  lemma FileTriedOneMore(cfg: Paths, h: State, snap: Snapshot, world: nat -> Answer, t: nat, n: nat)
    requires SnapshotTest(cfg, snap) && n < |FileItems(snap)| && FilesTried(h.files, snap, world, t, n)
    ensures FilesTried(RestoreOwned(h, snap.files[FileItems(snap)[n]], world(t + n)).files, snap, world, t, n + 1)
  {
    hide AllowlistTest, SortedKeys, RestoreOwned, FileIs;
    SortedKeysDistinct(snap.files.Keys);
    FileOperationIsLocal(h, snap.files[FileItems(snap)[n]], world(t + n));
  }

  lemma KeyTriedOneMore(h: State, snap: Snapshot, world: nat -> Answer, t: nat, n: nat)
    requires n < |KeyItems(snap)| && KeysTried(h.sysctls, snap, world, t, n)
    ensures KeysTried(AssignSysctl(h, KeyItems(snap)[n], world(t + n)).sysctls, snap, world, t, n + 1)
  {
    hide SortedKeys, Normalize;
    var keys := KeyItems(snap);
    SortedKeysDistinct(snap.sysctls.Keys);
    var sysctls := AssignSysctl(h, keys[n], world(t + n)).sysctls;
    forall k | 0 <= k < n && Honest(keys[k], snap.sysctls[keys[k]], world(t + k))
      ensures KeyAgrees(sysctls, keys[k], snap.sysctls[keys[k]])
    {
      assert KeyAgrees(h.sysctls, keys[k], snap.sysctls[keys[k]]);
      assert keys[k] != keys[n];
    }
  }

  lemma FileOperation(cfg: Paths, h: State, snap: Snapshot, cause: Cause, j: nat, errs: seq<Failure>, a: Answer)
    requires j < |FileItems(snap)|
    ensures Step(cfg, h, AtRestoreFile(snap, cause, j, errs), a)
            == Moment(RestoreOwned(h, snap.files[FileItems(snap)[j]], a),
                      AtRestoreFile(snap, cause, j + 1, Note(errs, a.ok, FileItems(snap)[j])))
  {
    hide SortedKeys, AtRestoreKey, RestoreOwned;
  }

  lemma KeyOperation(cfg: Paths, h: State, snap: Snapshot, cause: Cause, i: nat, errs: seq<Failure>, a: Answer)
    requires i < |KeyItems(snap)|
    ensures Step(cfg, h, AtRestoreKey(snap, cause, i, errs), a)
            == Moment(AssignSysctl(h, KeyItems(snap)[i], a),
                      AtRestoreKey(snap, cause, i + 1, Note(errs, a.ok, KeyItems(snap)[i])))
  {
    hide SortedKeys, AtRecheck, Ended, AssignSysctl;
  }

  lemma RecheckOperation(cfg: Paths, h: State, snap: Snapshot, cause: Cause, i: nat, actual: Values, a: Answer)
    requires i < |KeyItems(snap)| && a.ok && KeyItems(snap)[i] in h.sysctls
    ensures Step(cfg, h, AtRecheck(snap, cause, i, actual), a)
            == Moment(h, AtRecheck(snap, cause, i + 1, actual[KeyItems(snap)[i] := Normalize(h.sysctls[KeyItems(snap)[i]])]))
  {
    hide SortedKeys, Ended, Normalize;
  }

  lemma {:induction false} FilesPhase(cfg: Paths, h: State, snap: Snapshot, cause: Cause, world: nat -> Answer, t: nat, n: nat)
    requires SnapshotTest(cfg, snap) && n <= |FileItems(snap)|
    ensures var m := Exec(cfg, h, AtRestoreFile(snap, cause, 0, []), world, t, n);
            && m.proc == AtRestoreFile(snap, cause, n, ErrorsOf(FileItems(snap), world, t, n))
            && FilesTried(m.host.files, snap, world, t, n)
  {
    hide SnapshotTest, FileItems, AtRestoreFile, RestoreOwned, Step, FileIs, Exec, Note, InRange;
    var p0 := AtRestoreFile(snap, cause, 0, []);
    if n == 0 {
      ExecNext(cfg, h, p0, world, t, 0);
    } else {
      FilesPhase(cfg, h, snap, cause, world, t, n - 1);
      ExecNext(cfg, h, p0, world, t, n - 1);
      var m := Exec(cfg, h, p0, world, t, n - 1);
      FileTriedOneMore(cfg, m.host, snap, world, t, n - 1);
      FileOperation(cfg, m.host, snap, cause, n - 1, ErrorsOf(FileItems(snap), world, t, n - 1), world(t + n - 1));
    }
  }

  lemma NoteAfter(errs: seq<Failure>, done: seq<Failure>, ok: bool, item: string)
    ensures errs + Note(done, ok, item) == Note(errs + done, ok, item)
  {
  }

  lemma {:induction false} KeysPhase(cfg: Paths, h: State, snap: Snapshot, cause: Cause, errs: seq<Failure>,
                                     world: nat -> Answer, t: nat, n: nat)
    requires n <= |KeyItems(snap)|
    ensures var m := Exec(cfg, h, AtRestoreKey(snap, cause, 0, errs), world, t, n);
            && m.proc == AtRestoreKey(snap, cause, n, errs + ErrorsOf(KeyItems(snap), world, t, n))
            && KeysTried(m.host.sysctls, snap, world, t, n) && m.host.files == h.files && SameStore(h, m.host)
  {
    hide KeyItems, AtRestoreKey, Step, KeyAgrees, Honest, Exec, Note, InRange, Leave;
    var p0 := AtRestoreKey(snap, cause, 0, errs);
    if n == 0 {
      ExecNext(cfg, h, p0, world, t, 0);
      assert errs + [] == errs;
    } else {
      KeysPhase(cfg, h, snap, cause, errs, world, t, n - 1);
      ExecNext(cfg, h, p0, world, t, n - 1);
      var m := Exec(cfg, h, p0, world, t, n - 1);
      var done := ErrorsOf(KeyItems(snap), world, t, n - 1);
      KeyTriedOneMore(m.host, snap, world, t, n - 1);
      KeyOperation(cfg, m.host, snap, cause, n - 1, errs + done, world(t + n - 1));
      NoteAfter(errs, done, world(t + n - 1).ok, KeyItems(snap)[n - 1]);
    }
  }

  // For any set of failing items: every file whose operation succeeds and every
  // sysctl that is assigned honestly is restored, and exactly the failing items are reported.
  lemma RestoreIsBestEffort(cfg: Paths, h: State, snap: Snapshot, cause: Cause, world: nat -> Answer, t: nat)
    requires SnapshotTest(cfg, snap)
    ensures var nf, nk := |FileItems(snap)|, |KeyItems(snap)|;
            var m := Exec(cfg, h, AtRestore(cfg, snap, cause), world, t, nf + nk);
            && FilesTried(m.host.files, snap, world, t, nf)
            && KeysTried(m.host.sysctls, snap, world, t + nf, nk)
            && m.proc == AtRestoreKey(snap, cause, nk,
                 ErrorsOf(FileItems(snap), world, t, nf) + ErrorsOf(KeyItems(snap), world, t + nf, nk))
  {
    hide SnapshotTest, SortedKeys, AtRecheck, Exec, FilesTried, KeysTried, Ended;
    var nf, nk := |FileItems(snap)|, |KeyItems(snap)|;
    FilesPhase(cfg, h, snap, cause, world, t, nf);
    var mid := Exec(cfg, h, AtRestoreFile(snap, cause, 0, []), world, t, nf);
    var errs := ErrorsOf(FileItems(snap), world, t, nf);
    KeysPhase(cfg, mid.host, snap, cause, errs, world, t + nf, nk);
    ExecCompose(cfg, h, AtRestoreFile(snap, cause, 0, []), world, t, nf, nk);
    assert FilesTried(mid.host.files, snap, world, t, nf);
  }

  // ---------- restoring succeeds when nothing gets in its way ----------

  // Every operation succeeds and every assignment stores the snapshot's value.
  ghost predicate Cooperative(world: nat -> Answer, snap: Snapshot) {
    forall u: nat :: world(u).ok && forall key | key in snap.sysctls :: Honest(key, snap.sysctls[key], world(u))
  }

  lemma {:induction false} NoErrorsWhenOk(items: seq<string>, world: nat -> Answer, t: nat, n: nat)
    requires n <= |items| && forall u: nat :: world(u).ok
    ensures ErrorsOf(items, world, t, n) == []
  {
    if n > 0 { NoErrorsWhenOk(items, world, t, n - 1); }
  }

  lemma {:induction false} RecheckPhase(cfg: Paths, h: State, snap: Snapshot, cause: Cause, world: nat -> Answer, t: nat, n: nat)
    requires n <= |KeyItems(snap)| && KeysAgree(h.sysctls, snap) && forall u: nat :: world(u).ok
    ensures exists actual :: Exec(cfg, h, AtRecheck(snap, cause, 0, map[]), world, t, n)
                             == Moment(h, AtRecheck(snap, cause, n, actual))
                             && ReadsOf(h.sysctls, actual) && Covers(actual, KeyItems(snap), n)
  {
    hide KeyItems, AtRecheck, Step, Normalize, Exec, Covers, ReadsOf;
    var p0 := AtRecheck(snap, cause, 0, map[]);
    if n == 0 {
      var none: Values := map[];
      ExecNext(cfg, h, p0, world, t, 0);
      NothingRead(h, snap);
      assert Exec(cfg, h, p0, world, t, 0) == Moment(h, AtRecheck(snap, cause, 0, none));
    } else {
      RecheckPhase(cfg, h, snap, cause, world, t, n - 1);
      var actual :| Exec(cfg, h, p0, world, t, n - 1) == Moment(h, AtRecheck(snap, cause, n - 1, actual))
                    && ReadsOf(h.sysctls, actual) && Covers(actual, KeyItems(snap), n - 1);
      ExecNext(cfg, h, p0, world, t, n - 1);
      OneMoreRead(h, snap, actual, n - 1);
      RecheckOperation(cfg, h, snap, cause, n - 1, actual, world(t + n - 1));
      var key := KeyItems(snap)[n - 1];
      var next := actual[key := Normalize(h.sysctls[key])];
      assert Exec(cfg, h, p0, world, t, n) == Moment(h, AtRecheck(snap, cause, n, next));
    }
  }

  lemma NothingRead(h: State, snap: Snapshot)
    ensures ReadsOf(h.sysctls, map[]) && Covers(map[], KeyItems(snap), 0)
  {
  }

  lemma OneMoreRead(h: State, snap: Snapshot, actual: Values, i: nat)
    requires i < |KeyItems(snap)| && KeysAgree(h.sysctls, snap)
    requires ReadsOf(h.sysctls, actual) && Covers(actual, KeyItems(snap), i)
    ensures var key := KeyItems(snap)[i];
            key in h.sysctls
            && ReadsOf(h.sysctls, actual[key := Normalize(h.sysctls[key])])
            && Covers(actual[key := Normalize(h.sysctls[key])], KeyItems(snap), i + 1)
  {
    hide SortedKeys, Normalize;
    var key := KeyItems(snap)[i];
    assert KeyAgrees(h.sysctls, key, snap.sysctls[key]);
    CoversNext(actual, KeyItems(snap), i, Normalize(h.sysctls[key]));
  }

  lemma EverythingTriedIsRestored(h: State, snap: Snapshot, world: nat -> Answer, t: nat, u: nat)
    requires Cooperative(world, snap)
    requires FilesTried(h.files, snap, world, t, |FileItems(snap)|)
    requires KeysTried(h.sysctls, snap, world, u, |KeyItems(snap)|)
    ensures Agrees(h, snap)
  {
    hide SortedKeys, FileIs, KeyAgrees, Honest;
    forall path | path in snap.files ensures FileIs(h.files, path, snap.files[path]) {
      assert path in FileItems(snap);
      var k :| 0 <= k < |FileItems(snap)| && FileItems(snap)[k] == path;
      assert world(t + k).ok;
    }
    forall key | key in snap.sysctls ensures KeyAgrees(h.sysctls, key, snap.sysctls[key]) {
      assert key in KeyItems(snap);
      var k :| 0 <= k < |KeyItems(snap)| && KeyItems(snap)[k] == key;
      assert Honest(key, snap.sysctls[key], world(u + k));
    }
  }

  lemma RecheckEnds(cfg: Paths, h: State, snap: Snapshot, cause: Cause, world: nat -> Answer, t: nat)
    requires Cooperative(world, snap) && Agrees(h, snap)
    ensures Exec(cfg, h, AtRecheck(snap, cause, 0, map[]), world, t, |KeyItems(snap)|) == Moment(h, Ended(snap, cause, []))
  {
    hide SortedKeys, Exec, Ended, KeyAgrees, Honest, Normalize, Compared;
    var nk := |KeyItems(snap)|;
    RecheckPhase(cfg, h, snap, cause, world, t, nk);
    var actual :| Exec(cfg, h, AtRecheck(snap, cause, 0, map[]), world, t, nk)
                  == Moment(h, AtRecheck(snap, cause, nk, actual))
                  && ReadsOf(h.sysctls, actual) && Covers(actual, KeyItems(snap), nk);
    RecheckPasses(h, snap, actual);
  }

  // Under cooperation a restore runs to its end without an error, in a state that agrees.
  lemma RestoreSucceeds(cfg: Paths, h: State, snap: Snapshot, cause: Cause, world: nat -> Answer, t: nat)
    requires SnapshotTest(cfg, snap) && Cooperative(world, snap)
    ensures var n := |FileItems(snap)| + |KeyItems(snap)| + |KeyItems(snap)|;
            var m := Exec(cfg, h, AtRestore(cfg, snap, cause), world, t, n);
            m.proc == Ended(snap, cause, []) && Agrees(m.host, snap)
  {
    hide SnapshotTest, FileItems, KeyItems, Exec, AtRestore, Ended, AtRecheck, Agrees, Cooperative, InRange;
    var first := |FileItems(snap)| + |KeyItems(snap)|;
    var p := AtRestore(cfg, snap, cause);
    RestoreReachesRecheck(cfg, h, snap, cause, world, t);
    RecheckEnds(cfg, Exec(cfg, h, p, world, t, first).host, snap, cause, world, t + first);
    ExecCompose(cfg, h, p, world, t, first, |KeyItems(snap)|);
  }

  lemma RestoreReachesRecheck(cfg: Paths, h: State, snap: Snapshot, cause: Cause, world: nat -> Answer, t: nat)
    requires SnapshotTest(cfg, snap) && Cooperative(world, snap)
    ensures var m := Exec(cfg, h, AtRestore(cfg, snap, cause), world, t, |FileItems(snap)| + |KeyItems(snap)|);
            m.proc == AtRecheck(snap, cause, 0, map[]) && Agrees(m.host, snap)
  {
    hide SnapshotTest, FileItems, KeyItems, Exec, AtRestore, AtRestoreKey, FilesTried, KeysTried, AtRecheck, Agrees,
         ErrorsOf, Cooperative, InRange;
    var nf, nk := |FileItems(snap)|, |KeyItems(snap)|;
    RestoreIsBestEffort(cfg, h, snap, cause, world, t);
    NoErrors(snap, world, t);
    EverythingTriedIsRestored(Exec(cfg, h, AtRestore(cfg, snap, cause), world, t, nf + nk).host, snap, world, t, t + nf);
    AllKeysTried(snap, cause);
  }

  lemma NoErrors(snap: Snapshot, world: nat -> Answer, t: nat)
    requires Cooperative(world, snap)
    ensures var nf, nk := |FileItems(snap)|, |KeyItems(snap)|;
            ErrorsOf(FileItems(snap), world, t, nf) + ErrorsOf(KeyItems(snap), world, t + nf, nk) == []
  {
    hide FileItems, KeyItems, ErrorsOf, Honest;
    NoErrorsWhenOk(FileItems(snap), world, t, |FileItems(snap)|);
    NoErrorsWhenOk(KeyItems(snap), world, t + |FileItems(snap)|, |KeyItems(snap)|);
  }

  lemma AllKeysTried(snap: Snapshot, cause: Cause)
    ensures AtRestoreKey(snap, cause, |KeyItems(snap)|, []) == AtRecheck(snap, cause, 0, map[])
  {
  }

  lemma RecheckPasses(h: State, snap: Snapshot, actual: Values)
    requires KeysAgree(h.sysctls, snap) && ReadsOf(h.sysctls, actual) && Covers(actual, KeyItems(snap), |KeyItems(snap)|)
    ensures Compared(actual, snap.sysctls).ok
  {
    hide SortedKeys, Normalize, ChecksOf;
    CoversAll(actual, snap.sysctls);
    forall key | key in snap.sysctls ensures KeyMeets(actual, snap.sysctls, key) {
      assert KeyAgrees(h.sysctls, key, snap.sysctls[key]);
      NormalizeCanonical(h.sysctls[key], "");
    }
  }

  // A rollback finds a readable and acceptable record under what it is asked for: the
  // identifier, or without one the pointer, trimmed.
  ghost predicate Reachable(cfg: Paths, h: State, requested: string, id: string) {
    && (if requested == "" then h.latest.Some? && TrimEdges(h.latest.value) == id else requested == id)
    && Readable(h, id) && SnapshotTest(cfg, h.store[id])
  }

  // The report of a rollback that has returned to the record without an error.
  ghost predicate Returned(b: State, id: string, h: State, report: Report) {
    id in b.store && report.NoError() && report.snapshotId == id && Agrees(h, b.store[id])
  }

  // With a cooperative host, Rollback then ends without error in the record's state.
  lemma RollbackSucceeds(cfg: Paths, requested: string, id: string, h: State, world: nat -> Answer, t: nat)
    requires Reachable(cfg, h, requested, id) && Cooperative(world, h.store[id])
    ensures InRange(First(RollbackOp(requested)))
    ensures exists n: nat :: var m := Exec(cfg, h, First(RollbackOp(requested)), world, t, n);
              m.proc.Finished? && Returned(h, id, m.host, m.proc.report)
  {
    hide SnapshotTest, Exec, AtRestore, MatchesPattern, TrimEdges, Agrees, SortedKeys, Honest, FileItems, KeyItems, First,
         InRange;
    var snap, p := h.store[id], First(RollbackOp(requested));
    FirstInv(cfg, RollbackOp(requested), h);
    var looked := if requested == "" then 2 else 1;
    assert world(t).ok && world(t + 1).ok;
    Reads(cfg, h, requested, id, world, t);
    RestoreSucceeds(cfg, h, snap, REQUESTED, world, t + looked);
    var n := |FileItems(snap)| + |KeyItems(snap)| + |KeyItems(snap)|;
    ExecCompose(cfg, h, p, world, t, looked, n);
    assert Exec(cfg, h, p, world, t, looked + n).proc == Ended(snap, REQUESTED, []);
  }

  // Whatever finished rollback there is on such a host, that is its end.
  lemma RollbackReport(cfg: Paths, requested: string, id: string, b: State, world: nat -> Answer, t: nat, h: State,
                       report: Report, u: nat)
    requires Reachable(cfg, b, requested, id) && Cooperative(world, b.store[id])
    requires InRange(First(RollbackOp(requested)))
    requires Reaches(cfg, b, First(RollbackOp(requested)), world, t, Moment(h, Finished(report)), u)
    ensures Returned(b, id, h, report)
  {
    hide Reachable, Cooperative, Exec, Returned, First, InRange;
    var p := First(RollbackOp(requested));
    RollbackSucceeds(cfg, requested, id, b, world, t);
    var n: nat :| Exec(cfg, b, p, world, t, n).proc.Finished?
                  && Returned(b, id, Exec(cfg, b, p, world, t, n).host, Exec(cfg, b, p, world, t, n).proc.report);
    if n <= u - t {
      FinishedStays(cfg, b, p, world, t, n, u - t);
    } else {
      FinishedStays(cfg, b, p, world, t, u - t, n);
    }
  }

  lemma Reads(cfg: Paths, h: State, requested: string, id: string, world: nat -> Answer, t: nat)
    requires Reachable(cfg, h, requested, id) && world(t).ok && world(t + 1).ok
    ensures InRange(First(RollbackOp(requested)))
    ensures Exec(cfg, h, First(RollbackOp(requested)), world, t, if requested == "" then 2 else 1) ==
            Moment(h, AtRestore(cfg, h.store[id], REQUESTED))
  {
    hide TrimEdges, MatchesPattern, AtRestore, SnapshotTest;
    var p := First(RollbackOp(requested));
    assert Exec(cfg, h, p, world, t, 0) == Moment(h, p);
    if requested == "" { assert Exec(cfg, h, p, world, t, 1) == Moment(h, ReadStored(id)); }
  }

  // A death after the snapshot became durable can always be undone: with a cooperative
  // host, Rollback of the latest snapshot ends without error in the state before the Apply.
  lemma RollbackUndoes(cfg: Paths, b: State, h: State, snap: Snapshot, world: nat -> Answer, t: nat)
    requires Captured(cfg, b, snap) && Durable(h, snap) && MatchesPattern(snap.id) && Cooperative(world, snap)
    ensures InRange(First(RollbackOp("")))
    ensures exists n: nat :: var m := Exec(cfg, h, First(RollbackOp("")), world, t, n);
              && m.proc.Finished? && m.proc.report.NoError() && SameManaged(cfg, b, m.host)
              && (SameNodes(cfg, b, m.host) <==> PlainModes(cfg, b))
  {
    hide SnapshotTest, Exec, FormatId, TrimEdges, MatchesPattern, Agrees, TakenOf, Honest, SameManaged, SameNodes,
         PlainModes, First, InRange;
    var stamp: Stamp :| snap.id == FormatId(stamp);
    LatestRoundTrip(stamp);
    RollbackSucceeds(cfg, "", snap.id, h, world, t);
    var n: nat :| var m := Exec(cfg, h, First(RollbackOp("")), world, t, n);
                  m.proc.Finished? && Returned(h, snap.id, m.host, m.proc.report);
    AgreementIsState(cfg, b, Exec(cfg, h, First(RollbackOp("")), world, t, n).host, snap);
  }

  // ---------- the frame ----------

  // Nothing differs outside the managed sysctls and the two owned files, except that new
  // directories above these two and further temporary files may be there.
  ghost predicate Framed(cfg: Paths, b: State, h: State) {
    && (forall key | key !in MANAGED_SYSCTLS ::
          (key in h.sysctls <==> key in b.sysctls) && (key in b.sysctls ==> h.sysctls[key] == b.sysctls[key]))
    && (forall path | path != cfg.sysctlFile && path != cfg.modulesFile && !ExemptPath(cfg, path) ::
          SameAt(b.files, h.files, path))
    && DirsFramed(cfg, b.dirs, h.dirs)
    && Kept(b.strays, h.strays)
  }

  predicate DirsFramed(cfg: Paths, b: set<string>, h: set<string>) {
    && b <= h
    && forall dir | dir in h && !ExemptDir(cfg, dir) :: dir in b || dir in Above(cfg.sysctlFile) || dir in Above(cfg.modulesFile)
  }

  lemma ReachIsFramed(cfg: Paths, b: set<string>, h: set<string>, path: string, a: Answer)
    requires DirsFramed(cfg, b, h) && (path == cfg.sysctlFile || path == cfg.modulesFile)
    ensures DirsFramed(cfg, b, h + Reach(path, a))
  {
    hide Above, Reach, ExemptDir;
    ReachIsAbove(path, a);
  }

  // Every managed sysctl can be read and neither path holds something irregular: without
  // that, capturing fails before anything is written.
  ghost predicate Capturable(cfg: Paths, h: State) {
    && MANAGED_SYSCTLS <= h.sysctls.Keys
    && (cfg.sysctlFile in h.files ==> h.files[cfg.sysctlFile].Regular?)
    && (cfg.modulesFile in h.files ==> h.files[cfg.modulesFile].Regular?)
  }

  lemma CapturedIsCapturable(cfg: Paths, b: State, snap: Snapshot)
    requires Captured(cfg, b, snap)
    ensures Capturable(cfg, b)
  {
    hide MANAGED_SYSCTLS, Normalize, IsId;
    SnapshotTestIff(cfg, snap);
    forall key | key in MANAGED_SYSCTLS ensures key in b.sysctls { assert KeyAgrees(b.sysctls, key, snap.sysctls[key]); }
    assert FileTaken(b.files, cfg.sysctlFile, snap.files[cfg.sysctlFile]);
    assert FileTaken(b.files, cfg.modulesFile, snap.files[cfg.modulesFile]);
  }

  // Loading the plan's file can assign no sysctl outside the allowlist.
  ghost predicate Contained(plan: Plan) {
    AssignedKeys(plan.config) <= MANAGED_SYSCTLS
  }

  // Loading the plan's file assigns every key of the recommendation.
  ghost predicate Loads(plan: Plan) {
    plan.recommendation.sysctls.Keys <= AssignedKeys(plan.config)
  }

  lemma LoadIsFramed(cfg: Paths, b: State, h: State, plan: Plan, a: Answer)
    requires Contained(plan) && Framed(cfg, b, h) && Written(cfg, plan, h.files)
    ensures Framed(cfg, b, LoadConfig(h, cfg.sysctlFile, a))
  {
    hide AssignedKeys, MANAGED_SYSCTLS, ExemptPath, SameAt, DirsFramed, Kept;
  }

  lemma FileRestoreIsFramed(cfg: Paths, b: State, h: State, snap: Snapshot, path: string, a: Answer)
    requires Framed(cfg, b, h) && SnapshotTest(cfg, snap) && path in snap.files
    ensures Framed(cfg, b, RestoreOwned(h, snap.files[path], a))
  {
    hide MANAGED_SYSCTLS, AllowlistTest, Leave, Kept, Chmod, ExemptPath, DirsFramed, Reach;
    LeaveKeeps(b.strays, h.strays, a);
    ReachIsFramed(cfg, b.dirs, h.dirs, path, a);
    forall other | other != cfg.sysctlFile && other != cfg.modulesFile && !ExemptPath(cfg, other)
      ensures SameAt(b.files, RestoreOwned(h, snap.files[path], a).files, other)
    {
      assert SameAt(b.files, h.files, other);
    }
  }

  lemma KeyRestoreIsFramed(cfg: Paths, b: State, h: State, snap: Snapshot, key: string, a: Answer)
    requires Framed(cfg, b, h) && SnapshotTest(cfg, snap) && key in snap.sysctls
    ensures Framed(cfg, b, AssignSysctl(h, key, a))
  {
    hide MANAGED_SYSCTLS, DirsFramed, SameAt, ExemptPath;
  }

  lemma RestoreIsFramed(cfg: Paths, b: State, h: State, p: Proc, snap: Snapshot, a: Answer)
    requires Framed(cfg, b, h) && SnapshotTest(cfg, snap) && InRange(p)
    requires p.RestoreFile? || p.RestoreKey?
    requires snap == p.snap
    ensures Framed(cfg, b, Effect(cfg, h, p, a))
  {
    hide Framed, SnapshotTest, SortedKeys, RestoreOwned, AssignSysctl;
    if p.RestoreFile? {
      FileRestoreIsFramed(cfg, b, h, snap, SortedKeys(snap.files.Keys)[p.j], a);
    } else {
      KeyRestoreIsFramed(cfg, b, h, snap, SortedKeys(snap.sysctls.Keys)[p.i], a);
    }
  }

  lemma WriteIsFramed(cfg: Paths, b: State, h: State, path: string, data: string, a: Answer)
    requires Framed(cfg, b, h) && (path == cfg.sysctlFile || path == cfg.modulesFile)
    ensures Framed(cfg, b, PutFile(h, path, data, 420, a))
  {
    hide MANAGED_SYSCTLS, Leave, Kept, ExemptPath, DirsFramed, Reach;
    LeaveKeeps(b.strays, h.strays, a);
    ReachIsFramed(cfg, b.dirs, h.dirs, path, a);
    forall other | other != cfg.sysctlFile && other != cfg.modulesFile && !ExemptPath(cfg, other)
      ensures SameAt(b.files, PutFile(h, path, data, 420, a).files, other)
    {
      assert SameAt(b.files, h.files, other);
    }
  }

  lemma StoreIsFramed(cfg: Paths, b: State, h: State, snap: Snapshot, id: string, a: Answer)
    requires Framed(cfg, b, h)
    ensures Framed(cfg, b, SaveSnapshot(h, snap, a)) && Framed(cfg, b, SaveLatest(h, id, a))
  {
    hide MANAGED_SYSCTLS, Leave, Kept, SameAt, ExemptPath, DirsFramed;
    LeaveKeeps(b.strays, h.strays, a);
  }

  lemma StepIsFramed(cfg: Paths, op: Op, b: State, h: State, p: Proc, a: Answer)
    requires InRange(p) && Inv(cfg, op, b, h, p) && Framed(cfg, b, h) && Admitted(op)
    requires op.ApplyOp? ==> Contained(op.plan) || !Capturable(cfg, b)
    ensures Framed(cfg, b, Effect(cfg, h, p, a))
  {
    hide MANAGED_SYSCTLS, SortedKeys, AllowlistTest, Contained, SnapshotTest, Agrees, TakenOf, PutFile, SaveSnapshot,
         SaveLatest, LoadConfig, RestoreOwned, AssignSysctl, Kept, SameAt, Outcome, ExemptPath, DirsFramed, Capturable;
    match p
    case Load(plan, snap) =>
      CapturedIsCapturable(cfg, b, snap);
      LoadIsFramed(cfg, b, h, plan, a);
    case RestoreFile(snap, _, _, _) => RestoreIsFramed(cfg, b, h, p, snap, a);
    case RestoreKey(snap, _, _, _) => RestoreIsFramed(cfg, b, h, p, snap, a);
    case WriteSysctl(plan, _) => WriteIsFramed(cfg, b, h, cfg.sysctlFile, plan.config, a);
    case WriteModules(_, _) => WriteIsFramed(cfg, b, h, cfg.modulesFile, MODULES_CONTENT, a);
    case StoreSnapshot(_, snap) => StoreIsFramed(cfg, b, h, snap, snap.id, a);
    case StoreLatest(_, snap) => StoreIsFramed(cfg, b, h, snap, snap.id, a);
    case _ =>
  }

  // Whatever fails and wherever a run stops, nothing outside the allowlist and the two
  // files is assigned or written, save new directories above these and temporary files.
  lemma {:induction false} RunsAreFramed(cfg: Paths, op: Op, b: State, world: nat -> Answer, t: nat, n: nat)
    requires Distinct(cfg) && Admitted(op) && (op.ApplyOp? ==> Contained(op.plan) || !Capturable(cfg, b))
    ensures InRange(First(op)) && Framed(cfg, b, Exec(cfg, b, First(op), world, t, n).host)
  {
    hide Inv, Admitted, Framed, Effect, Next, First, Contained, Capturable, InRange;
    FirstInv(cfg, op, b);
    if n == 0 {
      assert Framed(cfg, b, b) by { FramedReflexive(cfg, b); }
    } else {
      RunsAreFramed(cfg, op, b, world, t, n - 1);
      ExecKeepsInv(cfg, op, b, world, t, n - 1);
      var m := Exec(cfg, b, First(op), world, t, n - 1);
      StepIsFramed(cfg, op, b, m.host, m.proc, world(t + n - 1));
    }
  }

  // Only failed writes that leave their temporary file add strays to a run.
  lemma {:induction false} RunsFollow(cfg: Paths, h: State, p: Proc, world: nat -> Answer, t: nat, n: nat)
    requires InRange(p)
    ensures StraysFollow(h.strays, Exec(cfg, h, p, world, t, n).host.strays, world)
  {
    hide StraysFollow, Leave, Next, InRange, Effect;
    FollowsItself(h.strays, world);
    if n > 0 {
      RunsFollow(cfg, h, p, world, t, n - 1);
      var m := Exec(cfg, h, p, world, t, n - 1);
      StraysOfStep(cfg, m.host, m.proc, world(t + n - 1));
      LeaveFollows(h.strays, m.host.strays, world, t + n - 1);
    }
  }

  // The operations that write files atomically.
  ghost predicate Writing(p: Proc)
    requires InRange(p)
  {
    match p
    case StoreSnapshot(_, _) | StoreLatest(_, _) | WriteSysctl(_, _) | WriteModules(_, _) => true
    case RestoreFile(snap, _, j, _) => snap.files[FileItems(snap)[j]].present
    case _ => false
  }

  lemma StraysOfStep(cfg: Paths, h: State, p: Proc, a: Answer)
    requires InRange(p)
    ensures Effect(cfg, h, p, a).strays == if Writing(p) then Leave(h.strays, a) else h.strays
  {
    hide Leave, SortedKeys, AssignedKeys, Chmod;
  }

  // A run leaves a temporary file exactly if one of its atomic writes fails and leaves one.
  lemma {:induction false} StraysOfRunIff(cfg: Paths, h: State, p: Proc, world: nat -> Answer, t: nat, n: nat)
    requires InRange(p)
    ensures Exec(cfg, h, p, world, t, n).host.strays != h.strays <==> exists k :: 0 <= k < n && LeavesAt(cfg, h, p, world, t, k)
  {
    hide Next, InRange, Effect, Writing, LeavesAt;
    if n > 0 {
      StraysOfRunIff(cfg, h, p, world, t, n - 1);
      RunsKeep(cfg, h, p, world, t, n - 1);
      var m := Exec(cfg, h, p, world, t, n - 1);
      OneStepLeaves(cfg, h, p, world, t, n - 1);
    }
  }

  ghost predicate LeavesAt(cfg: Paths, h: State, p: Proc, world: nat -> Answer, t: nat, k: nat)
    requires InRange(p)
  {
    var m := Exec(cfg, h, p, world, t, k);
    Writing(m.proc) && LeavesOne(m.host.strays, world(t + k))
  }

  lemma OneStepLeaves(cfg: Paths, h: State, p: Proc, world: nat -> Answer, t: nat, k: nat)
    requires InRange(p) && Kept(h.strays, Exec(cfg, h, p, world, t, k).host.strays)
    ensures var before, after := Exec(cfg, h, p, world, t, k).host.strays, Exec(cfg, h, p, world, t, k + 1).host.strays;
            && (LeavesAt(cfg, h, p, world, t, k) ==> after != h.strays)
            && (!LeavesAt(cfg, h, p, world, t, k) ==> after == before)
  {
    hide Next, InRange, Effect, Writing;
    var m := Exec(cfg, h, p, world, t, k);
    StraysOfStep(cfg, m.host, m.proc, world(t + k));
    if LeavesAt(cfg, h, p, world, t, k) {
      assert world(t + k).left.value.name in Exec(cfg, h, p, world, t, k + 1).host.strays;
    }
  }

  lemma {:induction false} RunsKeep(cfg: Paths, h: State, p: Proc, world: nat -> Answer, t: nat, n: nat)
    requires InRange(p)
    ensures Kept(h.strays, Exec(cfg, h, p, world, t, n).host.strays)
  {
    hide StraysFollow;
    RunsFollow(cfg, h, p, world, t, n);
    assert Kept(h.strays, Exec(cfg, h, p, world, t, n).host.strays) by { FollowsKeeps(h.strays, Exec(cfg, h, p, world, t, n).host.strays, world); }
  }

  lemma FollowsKeeps(a: map<string, Node>, b: map<string, Node>, world: nat -> Answer)
    requires StraysFollow(a, b, world)
    ensures Kept(a, b)
  {
  }

  lemma FramedReflexive(cfg: Paths, b: State)
    ensures Framed(cfg, b, b)
  {
  }
}
