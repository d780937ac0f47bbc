/**
 A process may die not only between two operations but inside one: at any system call of
 any atomic write.  Every host such a death can leave is one that the engine leaves after
 a suitable answer, so what is proved about every stop between operations covers them all.
 */
module Deaths {
  import opened Wrappers
  import opened Config
  import opened Sorting
  import opened HostState
  import opened Engine
  import opened EngineProofs
  import opened Recovery
  import opened Interleaving
  import AtomicFile

  // Snapshot records as file text.
  datatype RecordCodec = RecordCodec(encode: Snapshot -> string, decode: string -> Option<Snapshot>) {
    ghost predicate RoundTrips() {
      forall snap: Snapshot :: decode(encode(snap)) == Some(snap)
    }
  }

  // Where the process dies: the write it is in, what its system calls answer, and how many
  // of them have been made; outside a write, what the one command or call has done.
  datatype Death = Death(job: AtomicFile.Job, replies: nat -> AtomicFile.Reply, first: nat, calls: nat, answer: Answer)

  const PRIVATE := 384

  function RecordPath(cfg: Paths, id: string): string {
    cfg.stateDir + "/snapshots/" + id + "/snapshot.json"
  }

  function PointerPath(cfg: Paths): string {
    cfg.stateDir + "/latest"
  }

  // The write is the one the operation makes, under a new temporary name.
  ghost predicate Fits(cfg: Paths, codec: RecordCodec, h: State, p: Proc, d: Death)
    requires InRange(p)
  {
    Writing(p) ==>
      && AtomicFile.FreshOn(d.job, h)
      && match p
         case StoreSnapshot(_, snap) =>
           d.job.path == RecordPath(cfg, snap.id) && d.job.data == codec.encode(snap) && d.job.mode == PRIVATE
         case StoreLatest(_, snap) =>
           d.job.path == PointerPath(cfg) && d.job.data == snap.id + "\n" && d.job.mode == PRIVATE
         case WriteSysctl(plan, _) =>
           d.job.path == cfg.sysctlFile && d.job.data == plan.config && d.job.mode == 420
         case WriteModules(_, _) =>
           d.job.path == cfg.modulesFile && d.job.data == MODULES_CONTENT && d.job.mode == 420
         case RestoreFile(snap, _, j, _) =>
           var file := snap.files[FileItems(snap)[j]];
           d.job.path == file.path && d.job.data == file.data && d.job.mode == Chmod(file.mode)
         case _ => true
  }

  // The files that the write of an operation finds: for a record and for the pointer, that file alone.
  ghost function FilesBefore(codec: RecordCodec, h: State, p: Proc, d: Death): AtomicFile.Files {
    match p
    case StoreSnapshot(_, snap) =>
      if snap.id in h.store then map[d.job.path := Regular(PRIVATE, codec.encode(h.store[snap.id]))] else map[]
    case StoreLatest(_, _) => if h.latest.Some? then map[d.job.path := Regular(PRIVATE, h.latest.value)] else map[]
    case _ => h.files
  }

  // How far the write has got.
  ghost function PointOf(codec: RecordCodec, h: State, p: Proc, d: Death): AtomicFile.Point {
    AtomicFile.Steps(d.job, FilesBefore(codec, h, p, d), h.dirs, d.replies, d.first, d.calls)
  }

  // The file of a record, read back after the process died over it.
  ghost function RecordCut(h: State, codec: RecordCodec, p: Proc, d: Death): State
    requires p.StoreSnapshot?
  {
    var files := PointOf(codec, h, p, d).files;
    var strays := AtomicFile.Strays(d.job, h.strays, files);
    if d.job.path in files && files[d.job.path].Regular? && codec.decode(files[d.job.path].data).Some?
    then h.(store := h.store[p.snap.id := codec.decode(files[d.job.path].data).value], strays := strays)
    else h.(store := h.store - {p.snap.id}, strays := strays)
  }

  // The pointer file, likewise.
  ghost function PointerCut(h: State, codec: RecordCodec, p: Proc, d: Death): State
    requires p.StoreLatest?
  {
    var files := PointOf(codec, h, p, d).files;
    h.(latest := if d.job.path in files then ReadThrough(files[d.job.path]) else None,
       strays := AtomicFile.Strays(d.job, h.strays, files))
  }

  // The host a death inside the next operation leaves.
  ghost function Cut(cfg: Paths, codec: RecordCodec, h: State, p: Proc, d: Death): State
    requires InRange(p)
  {
    match p
    case StoreSnapshot(_, _) => RecordCut(h, codec, p, d)
    case StoreLatest(_, _) => PointerCut(h, codec, p, d)
    case WriteSysctl(_, _) => AtomicFile.After(d.job, h, d.replies, d.first, d.calls)
    case WriteModules(_, _) => AtomicFile.After(d.job, h, d.replies, d.first, d.calls)
    case RestoreFile(snap, _, j, _) =>
      if snap.files[FileItems(snap)[j]].present then AtomicFile.After(d.job, h, d.replies, d.first, d.calls)
      else Effect(cfg, h, p, d.answer)
    case _ => Effect(cfg, h, p, d.answer)
  }

  // ---------- a death inside an operation is an answer to it ----------

  // The answer that sums up the system calls made.
  ghost function SummaryOf(codec: RecordCodec, h: State, p: Proc, d: Death): Answer {
    AtomicFile.Summary(d.job, PointOf(codec, h, p, d), d.replies(d.first))
  }

  lemma RecordCutIsSave(h: State, codec: RecordCodec, p: Proc, d: Death)
    requires p.StoreSnapshot? && codec.RoundTrips() && AtomicFile.FreshOn(d.job, h) && d.job.data == codec.encode(p.snap)
    ensures RecordCut(h, codec, p, d) == SaveSnapshot(h, p.snap, SummaryOf(codec, h, p, d))
  {
    hide AtomicFile.Steps, AtomicFile.Next, Leave, AtomicFile.Strays, AtomicFile.TempAsExpected;
    var before, snap, point := FilesBefore(codec, h, p, d), p.snap, PointOf(codec, h, p, d);
    AtomicFile.AlwaysOldOrNew(d.job, before, h.dirs, d.replies, d.first, d.calls);
    AtomicFile.SummaryLeaves(d.job, h.strays, point, d.replies(d.first));
    TargetOf(d.job, before, point);
    if snap.id in h.store { assert codec.decode(codec.encode(h.store[snap.id])) == Some(h.store[snap.id]); }
    assert codec.decode(codec.encode(snap)) == Some(snap);
    assert RecordCut(h, codec, p, d).store == SaveSnapshot(h, snap, SummaryOf(codec, h, p, d)).store;
  }

  // The target alone, old or new.
  lemma TargetOf(job: AtomicFile.Job, before: AtomicFile.Files, p: AtomicFile.Point)
    requires job.temp != job.path && AtomicFile.OldOrNew(job, before, p)
    ensures if AtomicFile.Committed(p.stage) then job.path in p.files && p.files[job.path] == Regular(job.mode, job.data)
            else SameAt(before, p.files, job.path)
  {
    hide AtomicFile.Committed;
    assert job.path in p.files <==> job.path in p.files - {job.temp};
    if job.path in p.files { assert p.files[job.path] == (p.files - {job.temp})[job.path]; }
  }

  lemma PointerCutIsSave(h: State, codec: RecordCodec, p: Proc, d: Death)
    requires p.StoreLatest? && AtomicFile.FreshOn(d.job, h) && d.job.data == p.snap.id + "\n"
    ensures PointerCut(h, codec, p, d) == SaveLatest(h, p.snap.id, SummaryOf(codec, h, p, d))
  {
    hide AtomicFile.Steps, AtomicFile.Next, Leave, AtomicFile.Strays, AtomicFile.TempAsExpected;
    var before, point := FilesBefore(codec, h, p, d), PointOf(codec, h, p, d);
    AtomicFile.AlwaysOldOrNew(d.job, before, h.dirs, d.replies, d.first, d.calls);
    AtomicFile.SummaryLeaves(d.job, h.strays, point, d.replies(d.first));
    TargetOf(d.job, before, point);
  }

  // The host after the system calls is as one answer to the operation leaves it, and that
  // answer is a success exactly if the rename has happened.
  ghost predicate Answers(cfg: Paths, codec: RecordCodec, h: State, p: Proc, d: Death, a: Answer)
    requires InRange(p)
  {
    && Cut(cfg, codec, h, p, d) == Effect(cfg, h, p, a)
    && (Writing(p) ==> (a.ok <==> AtomicFile.Committed(PointOf(codec, h, p, d).stage)))
  }

  // Whatever system call a process dies at, the host is as one answer of the world to the
  // operation leaves it.
  lemma CutIsAnAnswer(cfg: Paths, codec: RecordCodec, h: State, p: Proc, d: Death)
    requires codec.RoundTrips() && InRange(p) && Fits(cfg, codec, h, p, d)
    ensures exists a: Answer :: Answers(cfg, codec, h, p, d, a)
  {
    hide AtomicFile.Steps, AtomicFile.After, RecordCut, PointerCut, PutFile, SaveSnapshot, SaveLatest, SortedKeys, LoadConfig,
         Chmod, AtomicFile.FreshOn;
    if Writing(p) {
      if p.StoreSnapshot? {
        RecordCutIsSave(h, codec, p, d);
      } else if p.StoreLatest? {
        PointerCutIsSave(h, codec, p, d);
      } else {
        AtomicFile.WriteIsOneOperation(d.job, h, d.replies, d.first, d.calls);
      }
      assert Answers(cfg, codec, h, p, d, SummaryOf(codec, h, p, d));
    } else {
      assert Answers(cfg, codec, h, p, d, d.answer);
    }
  }

  // ---------- what is left behind ----------

  // A process dying inside a write, or returning from it, leaves a temporary file on the
  // condition that AtomicFile gives for every number of system calls.
  lemma CutLeavesIff(cfg: Paths, codec: RecordCodec, h: State, p: Proc, d: Death)
    requires InRange(p) && Fits(cfg, codec, h, p, d) && Writing(p)
    ensures Cut(cfg, codec, h, p, d).strays != h.strays <==> AtomicFile.StrayAt(d.replies, d.first, d.calls)
    ensures PointOf(codec, h, p, d).stage.Done? ==>
              (Cut(cfg, codec, h, p, d).strays != h.strays <==> exists i :: AtomicFile.FailsTwice(d.replies, d.first, i))
  {
    hide AtomicFile.Steps, AtomicFile.StrayAt, AtomicFile.FailsTwice, SortedKeys, LoadConfig, Chmod;
    var before := FilesBefore(codec, h, p, d);
    var files := PointOf(codec, h, p, d).files;
    AtomicFile.LeftAtIff(d.job, before, h.dirs, d.replies, d.first, d.calls);
    if PointOf(codec, h, p, d).stage.Done? {
      AtomicFile.LeftBehindIff(d.job, before, h.dirs, d.replies, d.first, d.calls);
    }
    assert Cut(cfg, codec, h, p, d).strays == AtomicFile.Strays(d.job, h.strays, files);
    if d.job.temp in files { assert d.job.temp in AtomicFile.Strays(d.job, h.strays, files); }
  }

  // And it leaves the directories as they were exactly if it did not get to the first call
  // or those which that call came to had been there.
  lemma CutDirectoriesIff(cfg: Paths, codec: RecordCodec, h: State, p: Proc, d: Death)
    requires InRange(p) && Writing(p) && !p.StoreSnapshot? && !p.StoreLatest?
    ensures Cut(cfg, codec, h, p, d).dirs == h.dirs <==>
            d.calls == 0 || Tops(d.job.path, AtomicFile.LevelsOf(d.job, d.replies(d.first))) <= h.dirs
  {
    hide AtomicFile.Steps, AtomicFile.LevelsOf, SortedKeys, LoadConfig, Chmod, Tops;
    AtomicFile.DirectoriesSameIff(d.job, h.files, h.dirs, d.replies, d.first, d.calls);
  }

  // The k-th operation of a run, if it is a write, has returned from these system calls.
  ghost predicate CarriedOut(cfg: Paths, codec: RecordCodec, h: State, p: Proc, world: nat -> Answer, t: nat, k: nat, d: Death)
    requires InRange(p)
  {
    var m := Exec(cfg, h, p, world, t, k);
    Writing(m.proc) ==>
      && Fits(cfg, codec, m.host, m.proc, d) && PointOf(codec, m.host, m.proc, d).stage.Done?
      && Answers(cfg, codec, m.host, m.proc, d, world(t + k))
  }

  // It is a write that failed with its temporary file there and could not remove it either.
  ghost predicate FailedTwice(cfg: Paths, h: State, p: Proc, world: nat -> Answer, t: nat, k: nat, d: Death)
    requires InRange(p)
  {
    Writing(Exec(cfg, h, p, world, t, k).proc) && exists i :: AtomicFile.FailsTwice(d.replies, d.first, i)
  }

  lemma CarriedOutLeaves(cfg: Paths, codec: RecordCodec, h: State, p: Proc, world: nat -> Answer, t: nat, k: nat, d: Death)
    requires InRange(p) && CarriedOut(cfg, codec, h, p, world, t, k, d)
    ensures LeavesAt(cfg, h, p, world, t, k) <==> FailedTwice(cfg, h, p, world, t, k, d)
  {
    hide Exec, Fits, Cut, Effect, Writing, InRange, PointOf, AtomicFile.FailsTwice, AtomicFile.StrayAt;
    var m := Exec(cfg, h, p, world, t, k);
    if Writing(m.proc) {
      CutLeavesIff(cfg, codec, m.host, m.proc, d);
      StraysOfStep(cfg, m.host, m.proc, world(t + k));
      if LeavesOne(m.host.strays, world(t + k)) {
        assert world(t + k).left.value.name in Leave(m.host.strays, world(t + k));
      }
    }
  }

  // A run whose writes were carried out by system calls has left a temporary file exactly
  // if one of its writes failed twice.
  lemma StraysOfCallsIff(cfg: Paths, codec: RecordCodec, h: State, p: Proc, world: nat -> Answer, t: nat, n: nat,
                         io: nat -> Death)
    requires InRange(p) && forall k | 0 <= k < n :: CarriedOut(cfg, codec, h, p, world, t, k, io(k))
    ensures Exec(cfg, h, p, world, t, n).host.strays != h.strays <==>
            exists k :: 0 <= k < n && FailedTwice(cfg, h, p, world, t, k, io(k))
  {
    hide Exec, CarriedOut, FailedTwice, LeavesAt, InRange;
    StraysOfRunIff(cfg, h, p, world, t, n);
    forall k | 0 <= k < n ensures LeavesAt(cfg, h, p, world, t, k) <==> FailedTwice(cfg, h, p, world, t, k, io(k)) {
      CarriedOutLeaves(cfg, codec, h, p, world, t, k, io(k));
    }
  }

  // And one that dies inside its next write, exactly if that or this write was at a call
  // where its temporary file is there.
  lemma StraysOfDeathIff(cfg: Paths, codec: RecordCodec, h: State, p: Proc, world: nat -> Answer, t: nat, n: nat,
                         io: nat -> Death, d: Death)
    requires InRange(p) && forall k | 0 <= k < n :: CarriedOut(cfg, codec, h, p, world, t, k, io(k))
    requires var m := Exec(cfg, h, p, world, t, n); Writing(m.proc) && Fits(cfg, codec, m.host, m.proc, d)
    ensures var m := Exec(cfg, h, p, world, t, n);
            Cut(cfg, codec, m.host, m.proc, d).strays != h.strays <==>
              || AtomicFile.StrayAt(d.replies, d.first, d.calls)
              || exists k :: 0 <= k < n && FailedTwice(cfg, h, p, world, t, k, io(k))
  {
    hide Exec, CarriedOut, FailedTwice, InRange, AtomicFile.StrayAt, AtomicFile.FailsTwice, PointOf;
    StraysOfCallsIff(cfg, codec, h, p, world, t, n, io);
    RunsKeep(cfg, h, p, world, t, n);
    var m := Exec(cfg, h, p, world, t, n);
    CutLeavesIff(cfg, codec, m.host, m.proc, d);
    CutKeeps(cfg, codec, h.strays, m.host, m.proc, d);
  }

  lemma CutKeeps(cfg: Paths, codec: RecordCodec, strays: map<string, Node>, h: State, p: Proc, d: Death)
    requires InRange(p) && Fits(cfg, codec, h, p, d) && Writing(p) && Kept(strays, h.strays)
    ensures Kept(strays, Cut(cfg, codec, h, p, d).strays)
    ensures h.strays != strays ==> Cut(cfg, codec, h, p, d).strays != strays
  {
    hide AtomicFile.Steps, SortedKeys, LoadConfig, Chmod;
    KeptTwice(strays, h.strays, Cut(cfg, codec, h, p, d).strays);
  }

  lemma KeptTwice(a: map<string, Node>, b: map<string, Node>, c: map<string, Node>)
    requires Kept(a, b) && Kept(b, c)
    ensures Kept(a, c) && (c == a ==> b == a)
  {
    if c == a {
      assert forall name | name in b :: name in c;
      assert b.Keys == a.Keys;
    }
  }

  // ---------- deaths in a single run ----------

  // The world with one answer replaced.
  function Replace(world: nat -> Answer, t: nat, a: Answer): nat -> Answer {
    (u: nat) => if u == t then a else world(u)
  }

  lemma {:induction false} SameAnswersSameRun(cfg: Paths, h: State, p: Proc, world: nat -> Answer, other: nat -> Answer, t: nat, n: nat)
    requires InRange(p) && forall u: nat | u < t + n :: world(u) == other(u)
    ensures Exec(cfg, h, p, world, t, n) == Exec(cfg, h, p, other, t, n)
  {
    hide InRange, Step;
    if n > 0 {
      SameAnswersSameRun(cfg, h, p, world, other, t, n - 1);
      assert world(t + n - 1) == other(t + n - 1);
    }
  }

  // One operation after the n-th, the run is at the host h.
  ghost predicate StopsAfter(cfg: Paths, b: State, p: Proc, world: nat -> Answer, t: nat, n: nat, h: State)
    requires InRange(p)
  {
    Exec(cfg, b, p, world, t, n + 1).host == h
  }

  // Dying inside the operation after n others is stopping after n + 1 of another schedule.
  lemma CutIsAStop(cfg: Paths, codec: RecordCodec, b: State, p: Proc, world: nat -> Answer, t: nat, n: nat, d: Death)
    requires codec.RoundTrips() && InRange(p)
    requires var m := Exec(cfg, b, p, world, t, n); Fits(cfg, codec, m.host, m.proc, d)
    ensures var m := Exec(cfg, b, p, world, t, n);
            exists other: nat -> Answer :: StopsAfter(cfg, b, p, other, t, n, Cut(cfg, codec, m.host, m.proc, d))
  {
    hide InRange, Fits, Cut, Exec, Effect, Next;
    var m := Exec(cfg, b, p, world, t, n);
    CutIsAnAnswer(cfg, codec, m.host, m.proc, d);
    var a: Answer :| Answers(cfg, codec, m.host, m.proc, d, a);
    var other := Replace(world, t + n, a);
    SameAnswersSameRun(cfg, b, p, world, other, t, n);
    ExecNext(cfg, b, p, other, t, n);
    assert other(t + n) == a;
    assert StopsAfter(cfg, b, p, other, t, n, Cut(cfg, codec, m.host, m.proc, d));
  }

  // An Apply that dies at any system call of any operation leaves the host either untouched,
  // or such that a Rollback of the latest snapshot which reports no error undoes it.
  lemma DeathRecovery(cfg: Paths, codec: RecordCodec, plan: Plan, b: State, world: nat -> Answer, t: nat, n: nat, d: Death,
                      later: nat -> Answer, u: nat, k: nat)
    requires Distinct(cfg) && AllowlistTest(plan.recommendation.sysctls) && codec.RoundTrips()
    requires InRange(Modprobe(plan))
    requires var m := Exec(cfg, b, Modprobe(plan), world, t, n); Fits(cfg, codec, m.host, m.proc, d)
    ensures InRange(First(RollbackOp("")))
    ensures var m := Exec(cfg, b, Modprobe(plan), world, t, n);
            var cut := Cut(cfg, codec, m.host, m.proc, d);
            var back := Exec(cfg, cut, First(RollbackOp("")), later, u, k);
            || Untouched(b, cut)
            || (back.proc.Finished? && back.proc.report.NoError() ==>
                  && SameManaged(cfg, b, back.host)
                  && (SameNodes(cfg, b, back.host) <==> PlainModes(cfg, b)))
  {
    hide Exec, SameManaged, SameNodes, PlainModes, AllowlistTest, Fits, Cut, Untouched, First, InRange;
    CutIsAStop(cfg, codec, b, Modprobe(plan), world, t, n, d);
    var m := Exec(cfg, b, Modprobe(plan), world, t, n);
    var cut := Cut(cfg, codec, m.host, m.proc, d);
    var other: nat -> Answer :| StopsAfter(cfg, b, Modprobe(plan), other, t, n, cut);
    CrashRecovery(cfg, plan, b, other, t, n + 1, later, u, k);
  }

  // Nor does a death anywhere write outside the frame.
  lemma DeathIsFramed(cfg: Paths, codec: RecordCodec, op: Op, b: State, world: nat -> Answer, t: nat, n: nat, d: Death)
    requires Distinct(cfg) && Admitted(op) && (op.ApplyOp? ==> Contained(op.plan) || !Capturable(cfg, b)) && codec.RoundTrips()
    requires InRange(First(op))
    requires var m := Exec(cfg, b, First(op), world, t, n); Fits(cfg, codec, m.host, m.proc, d)
    ensures var m := Exec(cfg, b, First(op), world, t, n); Framed(cfg, b, Cut(cfg, codec, m.host, m.proc, d))
  {
    hide Exec, Admitted, Fits, Cut, Framed, First, Contained, Capturable;
    CutIsAStop(cfg, codec, b, First(op), world, t, n, d);
    var m := Exec(cfg, b, First(op), world, t, n);
    var other: nat -> Answer :| StopsAfter(cfg, b, First(op), other, t, n, Cut(cfg, codec, m.host, m.proc, d));
    RunsAreFramed(cfg, op, b, other, t, n + 1);
  }

  // ---------- deaths among many processes ----------

  // A process of the interleaved system dying inside its next operation is that process
  // acting once more and dying then: what holds after every sequence of events holds after
  // every such death.
  lemma DeathInsideIsTwoEvents(cfg: Paths, codec: RecordCodec, s: Sys, pid: Pid, d: Death)
    requires codec.RoundTrips() && pid in s.procs && s.procs[pid].Inside? && !s.procs[pid].proc.Finished?
    requires InRange(s.procs[pid].proc) && Fits(cfg, codec, s.host, s.procs[pid].proc, d)
    ensures exists a: Answer ::
              var t := OnEvent(cfg, OnEvent(cfg, s, Act(pid, a)), Die(pid));
              t.host == Cut(cfg, codec, s.host, s.procs[pid].proc, d) && pid !in t.procs && t.holder != Some(pid)
  {
    hide InRange, Fits, Cut, Effect, Next;
    CutIsAnAnswer(cfg, codec, s.host, s.procs[pid].proc, d);
    var a: Answer :| Answers(cfg, codec, s.host, s.procs[pid].proc, d, a);
    var t := OnEvent(cfg, OnEvent(cfg, s, Act(pid, a)), Die(pid));
    assert t.host == Cut(cfg, codec, s.host, s.procs[pid].proc, d);
  }

  // The write-ahead property at every system call: wherever the holder of the lock dies in
  // an undisturbed Apply, nothing has changed yet or `latest` names a complete record of
  // the host at lock time.
  lemma WriteAheadAtEveryCall(cfg: Paths, codec: RecordCodec, s: Sys, events: seq<Event>, d: Death)
    requires Distinct(cfg) && Initial(s) && codec.RoundTrips()
    requires var now := Run(cfg, s, events);
             && now.holder.Some? && !now.disturbed && now.holder.value in now.procs
             && now.procs[now.holder.value].Inside? && now.procs[now.holder.value].op.ApplyOp?
             && InRange(now.procs[now.holder.value].proc)
             && Fits(cfg, codec, now.host, now.procs[now.holder.value].proc, d)
    ensures var now := Run(cfg, s, events);
            Recoverable(cfg, now.base, Cut(cfg, codec, now.host, now.procs[now.holder.value].proc, d))
  {
    hide Run, Recoverable, Inv, Fits, Cut, InRange, Effect, Next, Admitted;
    var now := Run(cfg, s, events);
    var stage := now.procs[now.holder.value];
    SectionInvariant(cfg, s, events);
    CutIsAnAnswer(cfg, codec, now.host, stage.proc, d);
    var a: Answer :| Answers(cfg, codec, now.host, stage.proc, d, a);
    StepKeepsInv(cfg, stage.op, now.base, now.host, stage.proc, a);
    RecoverableThroughout(cfg, stage.op, now.base, Step(cfg, now.host, stage.proc, a).host, Step(cfg, now.host, stage.proc, a).proc);
  }
}
