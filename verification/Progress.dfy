/**
 The other half of all or nothing: on a host where no operation fails and the kernel
 stores what the loaded file says, Apply does reach its end without an error.
 */
module Progress {
  import opened Wrappers
  import opened Text
  import opened Sorting
  import opened Recommend
  import opened Config
  import opened LineFeeds
  import opened SnapshotId
  import opened HostState
  import opened Engine
  import opened EngineProofs
  import opened Recovery

  // Every operation succeeds, bbr becomes available, and the kernel stores the planned
  // values when the file is loaded.
  ghost predicate Obliging(world: nat -> Answer, plan: Plan) {
    forall t: nat ::
      && world(t).ok && WordPresent(world(t).text, "bbr")
      && forall key | key in plan.recommendation.sysctls :: Honest(key, plan.recommendation.sysctls[key], world(t))
  }

  // What the plan wants, in the shape of a snapshot's values.
  function Wanted(plan: Plan): Snapshot {
    Snapshot(SNAPSHOT_VERSION, "", plan.recommendation.sysctls, map[])
  }

  lemma {:induction false} CapturePhase(cfg: Paths, h: State, plan: Plan, stamp: Stamp, world: nat -> Answer, t: nat, n: nat)
    requires n <= |KeysOf(plan)| && AllOk(world) && plan.recommendation.sysctls.Keys <= h.sysctls.Keys
    ensures exists got :: Exec(cfg, h, AtCaptureKey(plan, stamp, 0, map[]), world, t, n)
                          == Moment(h, AtCaptureKey(plan, stamp, n, got))
  {
    hide SortedKeys, AtCaptureKey, Step, Normalize, Exec;
    var p0 := AtCaptureKey(plan, stamp, 0, map[]);
    if n == 0 {
      ExecNext(cfg, h, p0, world, t, 0);
    } else {
      CapturePhase(cfg, h, plan, stamp, world, t, n - 1);
      var got :| Exec(cfg, h, p0, world, t, n - 1) == Moment(h, AtCaptureKey(plan, stamp, n - 1, got));
      ExecNext(cfg, h, p0, world, t, n - 1);
      CaptureKeyOperation(cfg, h, plan, stamp, n - 1, got, world(t + n - 1));
      var key := KeysOf(plan)[n - 1];
      assert key in plan.recommendation.sysctls.Keys;
      var next := got[key := Normalize(h.sysctls[key])];
      assert Exec(cfg, h, p0, world, t, n) == Moment(h, AtCaptureKey(plan, stamp, n, next));
    }
  }

  lemma FilesPhaseOfCapture(cfg: Paths, h: State, plan: Plan, stamp: Stamp, got: Values, world: nat -> Answer, t: nat)
    requires AllOk(world) && Capturable(cfg, h)
    ensures InRange(AtCaptureOwned(plan, stamp, got, 0, map[]))
    ensures var m := Exec(cfg, h, AtCaptureOwned(plan, stamp, got, 0, map[]), world, t, 2);
            m.host == h && m.proc.StoreSnapshot? && m.proc.plan == plan
  {
    hide Step, FormatId, Exec, MANAGED_SYSCTLS;
    var p0 := AtCaptureOwned(plan, stamp, got, 0, map[]);
    CaptureOwnedOperation(cfg, h, plan, stamp, got, 0, map[], world(t));
    ExecNext(cfg, h, p0, world, t, 0);
    ExecNext(cfg, h, p0, world, t, 1);
    var first := CaptureOne(h, cfg.sysctlFile, world(t));
    CaptureOwnedOperation(cfg, h, plan, stamp, got, 1, map[cfg.sysctlFile := first.value], world(t + 1));
    assert map[][cfg.sysctlFile := first.value] == map[cfg.sysctlFile := first.value];
  }

  // The sysctls after loading the plan's file.
  function Loaded(sysctls: Values, plan: Plan, a: Answer): Values {
    sysctls + map key | key in a.effect && key in AssignedKeys(plan.config) :: a.effect[key]
  }

  lemma LoadsPlan(cfg: Paths, h: State, plan: Plan, a: Answer)
    requires Written(cfg, plan, h.files)
    ensures LoadConfig(h, cfg.sysctlFile, a).sysctls == Loaded(h.sysctls, plan, a)
  {
    hide AssignedKeys;
  }

  lemma LoadTakesEffect(sysctls: Values, plan: Plan, a: Answer)
    requires AllowlistTest(plan.recommendation.sysctls) && Loads(plan)
    requires forall key | key in plan.recommendation.sysctls :: Honest(key, plan.recommendation.sysctls[key], a)
    ensures KeysAgree(Loaded(sysctls, plan, a), Wanted(plan))
  {
    hide AssignedKeys, AllowlistTest, Normalize, MANAGED_SYSCTLS;
  }

  // If none fails, the record, the pointer, the two writes and the load lead to verification,
  // on the sysctls that loading the plan's file makes.
  lemma CommitPhase(cfg: Paths, h: State, plan: Plan, snap: Snapshot, world: nat -> Answer, t: nat)
    requires Distinct(cfg) && AllOk(world)
    ensures var m := Exec(cfg, h, StoreSnapshot(plan, snap), world, t, 5);
            m.proc == AtVerify(cfg, plan, snap, 0, map[]) && m.host.sysctls == Loaded(h.sysctls, plan, world(t + 4))
  {
    hide AtVerify, Exec, Step, LoadConfig, SaveSnapshot, SaveLatest, PutFile, Written, InRange, Loaded;
    var p0 := StoreSnapshot(plan, snap);
    var h1 := SaveSnapshot(h, snap, world(t));
    var h2 := SaveLatest(h1, snap.id, world(t + 1));
    var h3 := PutFile(h2, cfg.sysctlFile, plan.config, 420, world(t + 2));
    var h4 := PutFile(h3, cfg.modulesFile, MODULES_CONTENT, 420, world(t + 3));
    var h5 := LoadConfig(h4, cfg.sysctlFile, world(t + 4));
    assert InRange(p0) by { CommitInRange(plan, snap); }
    assert Exec(cfg, h, p0, world, t, 0) == Moment(h, p0) by { ExecNext(cfg, h, p0, world, t, 0); }
    assert Exec(cfg, h, p0, world, t, 1) == Moment(h1, StoreLatest(plan, snap)) by {
      CommitSteps(cfg, h, plan, snap, world(t));
      ExecNext(cfg, h, p0, world, t, 0);
    }
    assert Exec(cfg, h, p0, world, t, 2) == Moment(h2, WriteSysctl(plan, snap)) by {
      CommitSteps(cfg, h1, plan, snap, world(t + 1));
      ExecNext(cfg, h, p0, world, t, 1);
    }
    assert Exec(cfg, h, p0, world, t, 3) == Moment(h3, WriteModules(plan, snap)) by {
      CommitSteps(cfg, h2, plan, snap, world(t + 2));
      ExecNext(cfg, h, p0, world, t, 2);
    }
    assert Exec(cfg, h, p0, world, t, 4) == Moment(h4, Load(plan, snap)) by {
      CommitSteps(cfg, h3, plan, snap, world(t + 3));
      ExecNext(cfg, h, p0, world, t, 3);
    }
    assert Exec(cfg, h, p0, world, t, 5) == Moment(h5, AtVerify(cfg, plan, snap, 0, map[])) by {
      CommitSteps(cfg, h4, plan, snap, world(t + 4));
      ExecNext(cfg, h, p0, world, t, 4);
    }
    assert Written(cfg, plan, h4.files) by { BothWritten(cfg, h2, plan, world(t + 2), world(t + 3)); }
    LoadsPlan(cfg, h4, plan, world(t + 4));
    assert h4.sysctls == h.sysctls by { StoringKeepsSysctls(cfg, h, plan, snap, world, t); }
  }

  lemma StoringKeepsSysctls(cfg: Paths, h: State, plan: Plan, snap: Snapshot, world: nat -> Answer, t: nat)
    ensures var stored := SaveLatest(SaveSnapshot(h, snap, world(t)), snap.id, world(t + 1));
            PutFile(PutFile(stored, cfg.sysctlFile, plan.config, 420, world(t + 2)), cfg.modulesFile, MODULES_CONTENT, 420,
                    world(t + 3)).sysctls == h.sysctls
  {
    hide Leave, Reach;
  }

  lemma CommitInRange(plan: Plan, snap: Snapshot)
    ensures InRange(StoreSnapshot(plan, snap))
  {
  }

  lemma BothWritten(cfg: Paths, h: State, plan: Plan, a: Answer, b: Answer)
    requires Distinct(cfg) && a.ok && b.ok
    ensures Written(cfg, plan,
              PutFile(PutFile(h, cfg.sysctlFile, plan.config, 420, a), cfg.modulesFile, MODULES_CONTENT, 420, b).files)
  {
  }

  // The five commit operations when they succeed.
  lemma CommitSteps(cfg: Paths, h: State, plan: Plan, snap: Snapshot, a: Answer)
    requires a.ok
    ensures Step(cfg, h, StoreSnapshot(plan, snap), a) == Moment(SaveSnapshot(h, snap, a), StoreLatest(plan, snap))
    ensures Step(cfg, h, StoreLatest(plan, snap), a) == Moment(SaveLatest(h, snap.id, a), WriteSysctl(plan, snap))
    ensures Step(cfg, h, WriteSysctl(plan, snap), a)
            == Moment(PutFile(h, cfg.sysctlFile, plan.config, 420, a), WriteModules(plan, snap))
    ensures Step(cfg, h, WriteModules(plan, snap), a)
            == Moment(PutFile(h, cfg.modulesFile, MODULES_CONTENT, 420, a), Load(plan, snap))
    ensures Step(cfg, h, Load(plan, snap), a)
            == Moment(LoadConfig(h, cfg.sysctlFile, a), AtVerify(cfg, plan, snap, 0, map[]))
  {
    hide AtVerify, AtRestore, LoadConfig;
  }

  lemma {:induction false} VerifyPhase(cfg: Paths, h: State, plan: Plan, snap: Snapshot, world: nat -> Answer, t: nat, n: nat)
    requires n <= |KeysOf(plan)| && AllOk(world) && KeysAgree(h.sysctls, Wanted(plan))
    ensures exists actual :: Exec(cfg, h, AtVerify(cfg, plan, snap, 0, map[]), world, t, n)
                             == Moment(h, AtVerify(cfg, plan, snap, n, actual))
                             && ReadsOf(h.sysctls, actual) && Covers(actual, KeysOf(plan), n)
  {
    hide SortedKeys, AtVerify, Step, Normalize, Exec, Covers, ReadsOf, KeysAgree;
    var p0 := AtVerify(cfg, plan, snap, 0, map[]);
    if n == 0 {
      var none: Values := map[];
      ExecNext(cfg, h, p0, world, t, 0);
      NothingRead(h, Wanted(plan));
      assert Exec(cfg, h, p0, world, t, 0) == Moment(h, AtVerify(cfg, plan, snap, 0, none));
    } else {
      VerifyPhase(cfg, h, plan, snap, world, t, n - 1);
      var actual :| Exec(cfg, h, p0, world, t, n - 1) == Moment(h, AtVerify(cfg, plan, snap, n - 1, actual))
                    && ReadsOf(h.sysctls, actual) && Covers(actual, KeysOf(plan), n - 1);
      ExecNext(cfg, h, p0, world, t, n - 1);
      OneMoreRead(h, Wanted(plan), actual, n - 1);
      VerifyKeyOperation(cfg, h, plan, snap, n - 1, actual, world(t + n - 1));
      var key := KeysOf(plan)[n - 1];
      var next := actual[key := Normalize(h.sysctls[key])];
      assert Exec(cfg, h, p0, world, t, n) == Moment(h, AtVerify(cfg, plan, snap, n, next));
    }
  }

  lemma VerifyEnds(cfg: Paths, h: State, plan: Plan, snap: Snapshot, world: nat -> Answer, t: nat)
    requires AllOk(world) && KeysAgree(h.sysctls, Wanted(plan))
    ensures var m := Exec(cfg, h, AtVerify(cfg, plan, snap, 0, map[]), world, t, |KeysOf(plan)|);
            m.proc.Finished? && m.proc.report.NoError()
  {
    hide SortedKeys, Exec, KeysAgree, Compared, AtRestore, ReadsOf, Covers;
    var n := |KeysOf(plan)|;
    VerifyPhase(cfg, h, plan, snap, world, t, n);
    var actual :| Exec(cfg, h, AtVerify(cfg, plan, snap, 0, map[]), world, t, n)
                  == Moment(h, AtVerify(cfg, plan, snap, n, actual))
                  && ReadsOf(h.sysctls, actual) && Covers(actual, KeysOf(plan), n);
    RecheckPasses(h, Wanted(plan), actual);
  }

  lemma ObligingIsOk(world: nat -> Answer, plan: Plan)
    requires Obliging(world, plan)
    ensures AllOk(world)
  {
  }

  lemma ObligingIsHonest(world: nat -> Answer, plan: Plan, t: nat)
    requires Obliging(world, plan)
    ensures forall key | key in plan.recommendation.sysctls :: Honest(key, plan.recommendation.sysctls[key], world(t))
  {
    hide Honest, WordPresent;
  }

  lemma TwoFirstSteps(cfg: Paths, b: State, plan: Plan, world: nat -> Answer, t: nat)
    requires Obliging(world, plan)
    ensures InRange(Modprobe(plan))
    ensures Exec(cfg, b, Modprobe(plan), world, t, 2) ==
            Moment(b.(available := world(t).text), AtCaptureKey(plan, world(t + 1).stamp, 0, map[]))
  {
    hide AtCaptureKey, Fields, Honest;
    assert Exec(cfg, b, Modprobe(plan), world, t, 0) == Moment(b, Modprobe(plan));
    assert Exec(cfg, b, Modprobe(plan), world, t, 1) == Moment(b.(available := world(t).text), CheckBbr(plan));
    assert WordPresent(world(t).text, "bbr");
  }

  // On an obliging host Apply ends without an error, hence with everything applied.
  lemma ApplySucceeds(cfg: Paths, plan: Plan, b: State, world: nat -> Answer, t: nat)
    requires Distinct(cfg) && AllowlistTest(plan.recommendation.sysctls) && Loads(plan)
    requires Obliging(world, plan) && Capturable(cfg, b)
    ensures InRange(Modprobe(plan))
    ensures exists n: nat :: var m := Exec(cfg, b, Modprobe(plan), world, t, n);
              m.proc.Finished? && m.proc.report.NoError() && Applied(cfg, plan, m.host)
  {
    hide AllowlistTest, Loads, Obliging, Exec, Applied, AtVerify, KeysAgree, SortedKeys, InRange, SameManaged, AllOk,
         Capturable, Recoverable;
    var k := |KeysOf(plan)|;
    ReachesVerification(cfg, plan, b, world, t);
    var loaded := Exec(cfg, b, Modprobe(plan), world, t, 9 + k);
    var snap :| loaded.proc == AtVerify(cfg, plan, snap, 0, map[]);
    ObligingIsOk(world, plan);
    VerifyEnds(cfg, loaded.host, plan, snap, world, t + 9 + k);
    ExecCompose(cfg, b, Modprobe(plan), world, t, 9 + k, k);
    ApplyAllOrNothing(cfg, plan, b, world, t, 9 + k + k);
  }

  lemma ReachesVerification(cfg: Paths, plan: Plan, b: State, world: nat -> Answer, t: nat)
    requires Distinct(cfg) && AllowlistTest(plan.recommendation.sysctls) && Loads(plan)
    requires Obliging(world, plan) && Capturable(cfg, b)
    ensures InRange(Modprobe(plan))
    ensures var m := Exec(cfg, b, Modprobe(plan), world, t, 9 + |KeysOf(plan)|);
            KeysAgree(m.host.sysctls, Wanted(plan)) && exists snap :: m.proc == AtVerify(cfg, plan, snap, 0, map[])
  {
    hide AllowlistTest, Loads, Obliging, Exec, AtVerify, KeysAgree, SortedKeys, InRange, Loaded, AllOk, Capturable, Honest;
    var n := 4 + |KeysOf(plan)|;
    CapturesAll(cfg, plan, b, world, t);
    var stored := Exec(cfg, b, Modprobe(plan), world, t, n);
    ObligingIsOk(world, plan);
    CommitPhase(cfg, stored.host, plan, stored.proc.snap, world, t + n);
    ExecCompose(cfg, b, Modprobe(plan), world, t, n, 5);
    ObligingIsHonest(world, plan, t + n + 4);
    LoadTakesEffect(stored.host.sysctls, plan, world(t + n + 4));
  }

  // Loading the module, the availability test and the whole capture go through.
  lemma CapturesAll(cfg: Paths, plan: Plan, b: State, world: nat -> Answer, t: nat)
    requires AllowlistTest(plan.recommendation.sysctls) && Obliging(world, plan) && Capturable(cfg, b)
    ensures InRange(Modprobe(plan))
    ensures var m := Exec(cfg, b, Modprobe(plan), world, t, 4 + |KeysOf(plan)|);
            m.proc.StoreSnapshot? && m.proc.plan == plan
  {
    hide AllowlistTest, Obliging, Exec, AtCaptureKey, SortedKeys, MANAGED_SYSCTLS, InRange, FormatId;
    ObligingIsOk(world, plan);
    AllowlistTestIff(plan.recommendation.sysctls);
    TwoFirstSteps(cfg, b, plan, world, t);
    var h, stamp, k := b.(available := world(t).text), world(t + 1).stamp, |KeysOf(plan)|;
    CapturePhase(cfg, h, plan, stamp, world, t + 2, k);
    var got :| Exec(cfg, h, AtCaptureKey(plan, stamp, 0, map[]), world, t + 2, k) == Moment(h, AtCaptureKey(plan, stamp, k, got));
    CaptureDone(plan, stamp, got);
    ExecCompose(cfg, b, Modprobe(plan), world, t, 2, k);
    FilesPhaseOfCapture(cfg, h, plan, stamp, got, world, t + 2 + k);
    ExecCompose(cfg, b, Modprobe(plan), world, t, 2 + k, 2);
  }

  // ---------- the frame has no more room ----------

  function OtherValue(sysctls: Values, key: string): string {
    if key in sysctls && sysctls[key] == "0" then "1" else "0"
  }

  // An answer that does what the plan says, and sets one more key if the file assigns it.
  function SetsAlso(plan: Plan, key: string, value: string): Answer {
    Answer(true, plan.recommendation.sysctls[key := value], "bbr", SOME_TIME, {}, None, 0)
  }

  lemma AlwaysObliging(plan: Plan, key: string, value: string)
    requires key !in plan.recommendation.sysctls
    ensures Obliging((u: nat) => SetsAlso(plan, key, value), plan)
  {
    hide Normalize;
    assert WordPresent("bbr", "bbr") by { BbrIsAWord(); }
  }

  lemma BbrIsAWord()
    ensures WordPresent("bbr", "bbr")
  {
    FieldsOfJoin(["bbr"]);
  }

  // A plan whose file assigns a key outside the allowlist does set it, on a host that can be
  // captured and a kernel that lets it.
  lemma FrameBreaks(cfg: Paths, plan: Plan, b: State, key: string, t: nat)
    requires Distinct(cfg) && AllowlistTest(plan.recommendation.sysctls) && Capturable(cfg, b)
    requires key in AssignedKeys(plan.config) && key !in MANAGED_SYSCTLS
    ensures InRange(Modprobe(plan))
    ensures exists world: nat -> Answer, n: nat :: !Framed(cfg, b, Exec(cfg, b, Modprobe(plan), world, t, n).host)
  {
    hide MANAGED_SYSCTLS, AllowlistTest, Capturable, Obliging, Exec, AtVerify, SortedKeys, InRange, AssignedKeys, Framed,
         Loaded, SetsAlso, AllOk;
    AllowlistTestIff(plan.recommendation.sysctls);
    var value := OtherValue(b.sysctls, key);
    var world := (u: nat) => SetsAlso(plan, key, value);
    AlwaysObliging(plan, key, value);
    ObligingIsOk(world, plan);
    CapturesAll(cfg, plan, b, world, t);
    var n := 4 + |KeysOf(plan)|;
    var stored := Exec(cfg, b, Modprobe(plan), world, t, n);
    CommitPhase(cfg, stored.host, plan, stored.proc.snap, world, t + n);
    ExecCompose(cfg, b, Modprobe(plan), world, t, n, 5);
    var h := Exec(cfg, b, Modprobe(plan), world, t, n + 5).host;
    AlsoLoaded(stored.host.sysctls, plan, key, value);
    assert !Framed(cfg, b, h) by { OutsideIsSeen(cfg, b, h, key); }
  }

  lemma AlsoLoaded(sysctls: Values, plan: Plan, key: string, value: string)
    requires key in AssignedKeys(plan.config)
    ensures var h := Loaded(sysctls, plan, SetsAlso(plan, key, value)); key in h && h[key] == value
  {
    hide AssignedKeys;
  }

  lemma OutsideIsSeen(cfg: Paths, b: State, h: State, key: string)
    requires key !in MANAGED_SYSCTLS && key in h.sysctls && (key in b.sysctls ==> h.sysctls[key] != b.sysctls[key])
    ensures !Framed(cfg, b, h)
  {
    hide MANAGED_SYSCTLS, DirsFramed, ExemptPath;
  }

  // So on a host that can be captured an Apply keeps inside its frame, whatever happens,
  // exactly if its file assigns no key outside the allowlist; on any other host it always does.
  lemma FramedIff(cfg: Paths, plan: Plan, b: State, t: nat)
    requires Distinct(cfg) && AllowlistTest(plan.recommendation.sysctls) && InRange(Modprobe(plan))
    ensures (forall world: nat -> Answer, n: nat :: Framed(cfg, b, Exec(cfg, b, Modprobe(plan), world, t, n).host)) <==>
            Contained(plan) || !Capturable(cfg, b)
  {
    hide AllowlistTest, Capturable, Framed, Exec, InRange, MANAGED_SYSCTLS, AssignedKeys;
    if Contained(plan) || !Capturable(cfg, b) {
      forall world: nat -> Answer, n: nat ensures Framed(cfg, b, Exec(cfg, b, Modprobe(plan), world, t, n).host) {
        RunsAreFramed(cfg, ApplyOp(plan), b, world, t, n);
      }
    } else {
      var key :| key in AssignedKeys(plan.config) && key !in MANAGED_SYSCTLS;
      FrameBreaks(cfg, plan, b, key, t);
    }
  }

  // For the plan of a recommendation that passes the tool's test, in terms of its line feeds.
  lemma RenderedPlanFramedIff(cfg: Paths, current: Values, rec: Recommendation, b: State, t: nat)
    requires Distinct(cfg) && AllowlistTest(rec.sysctls) && InRange(Modprobe(PlanOf(current, rec)))
    ensures (forall world: nat -> Answer, n: nat ::
               Framed(cfg, b, Exec(cfg, b, Modprobe(PlanOf(current, rec)), world, t, n).host)) <==>
            AddsNoKey(rec) || !Capturable(cfg, b)
  {
    hide AllowlistTest, Capturable, Framed, Exec, InRange, MANAGED_SYSCTLS, AssignedKeys, Rendered, AddsNoKey, KeyOk;
    AllowlistTestIff(rec.sysctls);
    ManagedKeysAreOk();
    AssignsItsKeysIff(rec);
    FramedIff(cfg, PlanOf(current, rec), b, t);
  }

  const PANIC := "kernel.panic"

  // A recommendation with a second line in one of its thirteen values.
  function Leaky(rec: Recommendation): Recommendation {
    rec.(sysctls := rec.sysctls[FASTOPEN := "3" + "\n" + EntryLine(PANIC, "1")])
  }

  // Apply accepts its plan, and may set a sysctl that is none of the thirteen.
  lemma LeakyPlanBreaksFrame(cfg: Paths, rec: Recommendation, current: Values, b: State, t: nat)
    requires Distinct(cfg) && AllowlistTest(rec.sysctls) && Capturable(cfg, b)
    ensures Admitted(ApplyOp(PlanOf(current, Leaky(rec)))) && InRange(Modprobe(PlanOf(current, Leaky(rec))))
    ensures exists world: nat -> Answer, n: nat ::
              !Framed(cfg, b, Exec(cfg, b, Modprobe(PlanOf(current, Leaky(rec))), world, t, n).host)
  {
    hide Capturable, Framed, Exec, InRange, AssignedKeys, Rendered, KeyOk, EntryLine, AllowlistTest, MANAGED_SYSCTLS;
    PanicIsOutside();
    PanicIsAKey();
    StillAllowed(rec);
    AllowedValueLeaks(Leaky(rec), FASTOPEN, "3", PANIC, "1");
    FrameBreaks(cfg, PlanOf(current, Leaky(rec)), b, PANIC, t);
  }

  lemma PanicIsOutside()
    ensures PANIC !in MANAGED_SYSCTLS
  {
    assert |PANIC| == 12;
    assert forall key | key in MANAGED_SYSCTLS :: |key| > 12;
  }

  lemma PanicIsAKey()
    ensures KeyOk(PANIC)
  {
    hide KeyOk, MANAGED_SYSCTLS;
    NameIsOk(PANIC);
  }

  lemma StillAllowed(rec: Recommendation)
    requires AllowlistTest(rec.sysctls)
    ensures AllowlistTest(Leaky(rec).sysctls) && FASTOPEN in Leaky(rec).sysctls
  {
    hide AllowlistTest, EntryLine;
    AllowlistTestIff(rec.sysctls);
    assert Leaky(rec).sysctls.Keys == rec.sysctls.Keys;
    AllowlistTestIff(Leaky(rec).sysctls);
  }

  lemma CaptureDone(plan: Plan, stamp: Stamp, got: Values)
    ensures AtCaptureKey(plan, stamp, |KeysOf(plan)|, got) == AtCaptureOwned(plan, stamp, got, 0, map[])
  {
    hide SortedKeys;
  }

  // So the report a finished Apply returns on an obliging host has no error.
  lemma ObligedReportIsClean(cfg: Paths, plan: Plan, b: State, world: nat -> Answer, t: nat, m: Moment, u: nat)
    requires Distinct(cfg) && AllowlistTest(plan.recommendation.sysctls) && Loads(plan)
    requires Obliging(world, plan) && Capturable(cfg, b)
    requires InRange(Modprobe(plan)) && Reaches(cfg, b, Modprobe(plan), world, t, m, u) && m.proc.Finished?
    ensures m.proc.report.NoError()
  {
    hide AllowlistTest, Loads, Obliging, Capturable, Exec, Applied, InRange;
    ApplySucceeds(cfg, plan, b, world, t);
    var n: nat :| Exec(cfg, b, Modprobe(plan), world, t, n).proc.Finished?
                  && Exec(cfg, b, Modprobe(plan), world, t, n).proc.report.NoError();
    if n <= u - t {
      FinishedStays(cfg, b, Modprobe(plan), world, t, n, u - t);
    } else {
      FinishedStays(cfg, b, Modprobe(plan), world, t, u - t, n);
    }
  }
}
