/**
 Any number of Apply and Rollback processes, interleaved step by step, dying at any
 point, on a host that others may edit between and during their critical sections.
 */
module Interleaving {
  import opened Wrappers
  import opened Text
  import opened Sorting
  import opened Config
  import opened SnapshotId
  import opened HostState
  import opened Engine
  import opened EngineProofs
  import opened Recovery

  type Pid = nat

  // A process waits, is in its section, which is the slot-th item of the log, or is over,
  // with the slot of the section it had, if it got that far.
  datatype Stage = Waiting(op: Op) | Inside(op: Op, proc: Proc, slot: nat) | Over(op: Op, report: Report, had: Option<nat>)

  // A stored snapshot, the host when its section took the lock, and whether nobody
  // edited the host between that moment and the storing.
  datatype Stored = Stored(snap: Snapshot, base: State, clean: bool)

  // What an outside edit leaves: anything at all in the sysctls and the file system.
  datatype Outside = Outside(sysctls: Values, files: map<string, Node>, dirs: set<string>, strays: map<string, Node>)

  function Edit(h: State, edit: Outside): State {
    h.(sysctls := edit.sysctls, files := edit.files, dirs := edit.dirs, strays := edit.strays)
  }

  // The order of the sections, as the lock was granted, with the answers each received,
  // and the edits made while the lock was free.
  datatype Item = Ran(op: Op, answers: seq<Answer>) | Edited(edit: Outside)

  // The host, the lock and the processes; then history: the host when the lock was last
  // granted, whether it was edited since, the stored snapshots, the order of sections,
  // and whether anyone ever edited under a held lock.
  datatype Sys = Sys(
    host: State, holder: Option<Pid>, procs: map<Pid, Stage>,
    base: State, disturbed: bool, hist: seq<Stored>, log: seq<Item>, interfered: bool)

  datatype Event =
    | Spawn(pid: Pid, op: Op)
    | Acquire(pid: Pid, answer: Answer)
    | Act(pid: Pid, answer: Answer)
    | Release(pid: Pid)
    | Die(pid: Pid)
    | Change(edit: Outside)

  function Refused(op: Op, failure: Failure): Stage {
    Over(op, Report("", UNVERIFIED, Some(failure), []), None)
  }

  function WithAnswer(log: seq<Item>, a: Answer): seq<Item> {
    if log != [] && log[|log| - 1].Ran? then
      var last := log[|log| - 1];
      log[..|log| - 1] + [Ran(last.op, last.answers + [a])]
    else log
  }

  // ---------- events ----------

  function OnAcquire(s: Sys, pid: Pid, a: Answer): Sys
    requires pid in s.procs && s.procs[pid].Waiting?
  {
    var op := s.procs[pid].op;
    if !Admitted(op) then s.(procs := s.procs[pid := Refused(op, OutsideAllowlist)])
    else if !a.ok || s.holder.Some? then s.(procs := s.procs[pid := Refused(op, LockBusy)])
    else s.(holder := Some(pid), procs := s.procs[pid := Inside(op, First(op), |s.log|)],
            base := s.host, disturbed := false, log := s.log + [Ran(op, [])])
  }

  ghost function OnAct(cfg: Paths, s: Sys, pid: Pid, a: Answer): Sys
    requires pid in s.procs && s.procs[pid].Inside? && InRange(s.procs[pid].proc)
  {
    var p := s.procs[pid].proc;
    var m := Step(cfg, s.host, p, a);
    s.(host := m.host, procs := s.procs[pid := Inside(s.procs[pid].op, m.proc, s.procs[pid].slot)],
       hist := if p.StoreSnapshot? && a.ok then s.hist + [Stored(p.snap, s.base, !s.disturbed)] else s.hist,
       log := WithAnswer(s.log, a))
  }

  function Unlock(s: Sys, pid: Pid): Option<Pid> {
    if s.holder == Some(pid) then None else s.holder
  }

  ghost function OnEvent(cfg: Paths, s: Sys, e: Event): Sys {
    match e
    case Spawn(pid, op) => if pid in s.procs then s else s.(procs := s.procs[pid := Waiting(op)])
    case Acquire(pid, a) => if pid in s.procs && s.procs[pid].Waiting? then OnAcquire(s, pid, a) else s
    case Act(pid, a) =>
      if pid in s.procs && s.procs[pid].Inside? && !s.procs[pid].proc.Finished? && InRange(s.procs[pid].proc)
      then OnAct(cfg, s, pid, a) else s
    case Release(pid) =>
      if pid in s.procs && s.procs[pid].Inside? && s.procs[pid].proc.Finished?
      then s.(holder := Unlock(s, pid), procs := s.procs[pid := Over(s.procs[pid].op, s.procs[pid].proc.report, Some(s.procs[pid].slot))])
      else s
    case Die(pid) => s.(holder := Unlock(s, pid), procs := s.procs - {pid})
    case Change(edit) =>
      s.(host := Edit(s.host, edit), disturbed := true,
         interfered := s.interfered || s.holder.Some?,
         log := if s.holder.Some? then s.log else s.log + [Edited(edit)])
  }

  ghost function Run(cfg: Paths, s: Sys, events: seq<Event>): Sys {
    if events == [] then s else OnEvent(cfg, Run(cfg, s, events[..|events| - 1]), events[|events| - 1])
  }

  // Before anything has run.
  predicate Initial(s: Sys) {
    s.holder == None && s.procs == map[] && s.hist == [] && s.log == [] && !s.interfered
  }

  // ---------- the lock ----------

  // A process is in its critical section exactly when it holds the lock.
  ghost predicate Exclusive(s: Sys) {
    && (forall pid | pid in s.procs && s.procs[pid].Inside? :: s.holder == Some(pid))
    && (s.holder.Some? ==> s.holder.value in s.procs && s.procs[s.holder.value].Inside?)
    && (forall pid | pid in s.procs && s.procs[pid].Inside? ::
          Admitted(s.procs[pid].op) && InRange(s.procs[pid].proc))
  }

  lemma FirstRanges(op: Op)
    ensures InRange(First(op))
  {
    hide MatchesPattern;
  }

  lemma ExclusiveStep(cfg: Paths, s: Sys, e: Event)
    requires Exclusive(s)
    ensures Exclusive(OnEvent(cfg, s, e))
  {
    hide Step, Admitted, InRange, First, WithAnswer, Edit;
    if e.Acquire? && e.pid in s.procs && s.procs[e.pid].Waiting? {
      FirstRanges(s.procs[e.pid].op);
    }
  }

  lemma {:induction false} MutualExclusion(cfg: Paths, s: Sys, events: seq<Event>)
    requires Initial(s)
    ensures Exclusive(Run(cfg, s, events))
  {
    hide OnEvent, InRange, Admitted;
    if events != [] {
      MutualExclusion(cfg, s, events[..|events| - 1]);
      ExclusiveStep(cfg, Run(cfg, s, events[..|events| - 1]), events[|events| - 1]);
    }
  }

  // ---------- the section that holds the lock ----------

  ghost predicate Undisturbed(cfg: Paths, s: Sys)
    requires Exclusive(s)
  {
    s.holder.Some? && !s.disturbed ==>
      Inv(cfg, s.procs[s.holder.value].op, s.base, s.host, s.procs[s.holder.value].proc)
  }

  lemma UndisturbedStep(cfg: Paths, s: Sys, e: Event)
    requires Distinct(cfg) && Exclusive(s) && Undisturbed(cfg, s) && Exclusive(OnEvent(cfg, s, e))
    ensures Undisturbed(cfg, OnEvent(cfg, s, e))
  {
    hide Step, AllowlistTest, InRange, First, Inv, Admitted;
    match e
    case Acquire(pid, a) => FirstInv(cfg, if pid in s.procs then s.procs[pid].op else RollbackOp(""), s.host);
    case Act(pid, a) =>
      if pid in s.procs && s.procs[pid].Inside? && !s.disturbed {
        StepKeepsInv(cfg, s.procs[pid].op, s.base, s.host, s.procs[pid].proc, a);
      }
    case _ =>
  }

  lemma {:induction false} SectionInvariant(cfg: Paths, s: Sys, events: seq<Event>)
    requires Distinct(cfg) && Initial(s)
    ensures Exclusive(Run(cfg, s, events)) && Undisturbed(cfg, Run(cfg, s, events))
  {
    hide OnEvent, InRange, Admitted, Inv, Exclusive;
    MutualExclusion(cfg, s, events);
    if events == [] {
      assert !s.holder.Some?;
    } else {
      var before := Run(cfg, s, events[..|events| - 1]);
      SectionInvariant(cfg, s, events[..|events| - 1]);
      UndisturbedStep(cfg, before, events[|events| - 1]);
    }
  }

  // ---------- the history of snapshots ----------

  ghost predicate Proper(cfg: Paths, snap: Snapshot) {
    SnapshotTest(cfg, snap) && snap.version == SNAPSHOT_VERSION && IsId(snap.id)
  }

  ghost predicate OwnedShape(cfg: Paths, files: map<string, FileSnapshot>, j: nat) {
    && files.Keys == (if j == 0 then {} else if j == 1 then {cfg.sysctlFile} else {cfg.sysctlFile, cfg.modulesFile})
    && forall path | path in files :: files[path].path == path
  }

  // A capture in progress, or just completed, whoever edits the host meanwhile.
  ghost predicate Shaped(cfg: Paths, p: Proc)
    requires InRange(p)
  {
    match p
    case Modprobe(plan) => AllowlistTest(plan.recommendation.sysctls)
    case CheckBbr(plan) => AllowlistTest(plan.recommendation.sysctls)
    case CaptureKey(plan, _, i, got) => AllowlistTest(plan.recommendation.sysctls) && Covers(got, KeysOf(plan), i)
    case CaptureOwned(plan, _, got, j, files) => got.Keys == MANAGED_SYSCTLS && OwnedShape(cfg, files, j)
    case StoreSnapshot(_, snap) => Proper(cfg, snap)
    case _ => true
  }

  lemma AtCaptureKeyShaped(cfg: Paths, plan: Plan, stamp: Stamp, i: nat, got: Values)
    requires AllowlistTest(plan.recommendation.sysctls) && i <= |KeysOf(plan)| && Covers(got, KeysOf(plan), i)
    ensures Shaped(cfg, AtCaptureKey(plan, stamp, i, got))
  {
    hide SortedKeys, MANAGED_SYSCTLS, AllowlistTest;
    if i == |KeysOf(plan)| {
      CoversAll(got, plan.recommendation.sysctls);
      AllowlistTestIff(plan.recommendation.sysctls);
    }
  }

  lemma AtCaptureOwnedShaped(cfg: Paths, plan: Plan, stamp: Stamp, got: Values, j: nat, files: map<string, FileSnapshot>)
    requires Distinct(cfg) && got.Keys == MANAGED_SYSCTLS && j <= 2 && OwnedShape(cfg, files, j)
    ensures Shaped(cfg, AtCaptureOwned(plan, stamp, got, j, files))
  {
    hide MANAGED_SYSCTLS, FormatId, SnapshotTest;
    if j == 2 { SnapshotTestIff(cfg, Snapshot(SNAPSHOT_VERSION, FormatId(stamp), got, files)); }
  }

  lemma ShapedStep(cfg: Paths, h: State, p: Proc, a: Answer)
    requires Distinct(cfg) && InRange(p) && Shaped(cfg, p)
    ensures Shaped(cfg, Step(cfg, h, p, a).proc)
  {
    hide MANAGED_SYSCTLS, AllowlistTest, SortedKeys, AtCaptureKey, AtCaptureOwned, Fields, Proper, Normalize;
    if p.CheckBbr? {
      AtCaptureKeyShaped(cfg, p.plan, a.stamp, 0, map[]);
    } else if p.CaptureKey? {
      var read := ReadSysctl(h, KeysOf(p.plan)[p.i], a);
      if read.Some? {
        CoversNext(p.got, KeysOf(p.plan), p.i, Normalize(read.value));
        AtCaptureKeyShaped(cfg, p.plan, p.stamp, p.i + 1, p.got[KeysOf(p.plan)[p.i] := Normalize(read.value)]);
      }
    } else if p.CaptureOwned? {
      var path := OwnedPath(cfg, p.j);
      var one := CaptureOne(h, path, a);
      if one.Some? {
        AtCaptureOwnedShaped(cfg, p.plan, p.stamp, p.got, p.j + 1, p.files[path := one.value]);
      }
    } else if !p.Modprobe? {
      OthersShaped(cfg, h, p, a);
    }
  }

  // A restore under way, or a section at its end.
  predicate Closing(p: Proc) {
    p.RestoreFile? || p.RestoreKey? || p.RecheckKey? || p.Finished?
  }

  lemma RestoreCloses(cfg: Paths, snap: Snapshot, cause: Cause)
    ensures Closing(AtRestore(cfg, snap, cause))
  {
    hide SnapshotTest, SortedKeys, Compared;
  }

  lemma VerifyStays(cfg: Paths, plan: Plan, snap: Snapshot, i: nat, actual: Values)
    ensures AtVerify(cfg, plan, snap, i, actual).VerifyKey? || Closing(AtVerify(cfg, plan, snap, i, actual))
  {
    hide AtRestore, SortedKeys, Compared;
    if i >= |KeysOf(plan)| {
      RestoreCloses(cfg, snap, Cause(Some(VerifyMismatch), Compared(actual, plan.recommendation.sysctls)));
    }
  }

  lemma RestoringStays(h: State, p: Proc, a: Answer)
    requires InRange(p) && (p.RestoreFile? || p.RestoreKey? || p.RecheckKey?)
    ensures Closing(NextRestore(h, p, a))
  {
    hide SortedKeys, Normalize, Compared;
  }

  lemma CommitStays(cfg: Paths, h: State, p: Proc, a: Answer)
    requires InRange(p) && (p.WriteSysctl? || p.WriteModules? || p.Load? || p.VerifyKey?)
    ensures var q := NextCommit(cfg, h, p, a); Closing(q) || q.WriteModules? || q.Load? || q.VerifyKey?
  {
    hide SortedKeys, AtRestore, AtVerify, Normalize, Closing;
    RestoreCloses(cfg, p.snap, Because(WriteFailed(cfg.sysctlFile)));
    RestoreCloses(cfg, p.snap, Because(WriteFailed(cfg.modulesFile)));
    RestoreCloses(cfg, p.snap, Because(LoadFailed));
    if p.Load? {
      VerifyStays(cfg, p.plan, p.snap, 0, map[]);
    } else if p.VerifyKey? {
      var key := KeysOf(p.plan)[p.i];
      var read := ReadSysctl(h, key, a);
      if read.Some? {
        VerifyStays(cfg, p.plan, p.snap, p.i + 1, p.actual[key := Normalize(read.value)]);
      } else {
        RestoreCloses(cfg, p.snap, Because(ReadFailed(key)));
      }
    }
  }

  lemma ReadingStays(cfg: Paths, h: State, p: Proc, a: Answer)
    requires p.ReadLatest? || p.ReadStored?
    ensures var q := NextRead(cfg, h, p, a); Closing(q) || q.ReadStored?
  {
    hide AtRestore, TrimEdges, MatchesPattern;
    if p.ReadStored? && p.id in h.store { RestoreCloses(cfg, h.store[p.id], REQUESTED); }
  }

  // Past the capture nothing leads back into it, and only storing leads to the pointer.
  lemma OthersShaped(cfg: Paths, h: State, p: Proc, a: Answer)
    requires InRange(p)
    requires !p.Modprobe? && !p.CheckBbr? && !p.CaptureKey? && !p.CaptureOwned?
    ensures var q := Step(cfg, h, p, a).proc;
            && !q.Modprobe? && !q.CheckBbr? && !q.CaptureKey? && !q.CaptureOwned? && !q.StoreSnapshot?
            && (q.StoreLatest? ==> p.StoreSnapshot? && a.ok)
  {
    hide InRange, Effect, NextCapture, NextRestore, NextRead, NextCommit;
    match p
    case RestoreFile(_, _, _, _) => RestoringStays(h, p, a);
    case RestoreKey(_, _, _, _) => RestoringStays(h, p, a);
    case RecheckKey(_, _, _, _) => RestoringStays(h, p, a);
    case ReadLatest => ReadingStays(cfg, h, p, a);
    case ReadStored(_) => ReadingStays(cfg, h, p, a);
    case StoreSnapshot(_, _) => StoringStays(cfg, h, p, a);
    case StoreLatest(_, _) => StoringStays(cfg, h, p, a);
    case Finished(_) =>
    case _ => CommitStays(cfg, h, p, a);
  }

  lemma StoringStays(cfg: Paths, h: State, p: Proc, a: Answer)
    requires InRange(p) && (p.StoreSnapshot? || p.StoreLatest?)
    ensures var q := NextCommit(cfg, h, p, a); q.Finished? || q.WriteSysctl? || (q.StoreLatest? && p.StoreSnapshot? && a.ok)
  {
  }

  // The position of the last entry with the identifier, counted from one; zero if none.
  function LastOf(hist: seq<Stored>, id: string): (n: nat)
    ensures n <= |hist|
    ensures n > 0 ==> hist[n - 1].snap.id == id
    ensures forall i | n <= i < |hist| :: hist[i].snap.id != id
  {
    if hist == [] then 0
    else if hist[|hist| - 1].snap.id == id then |hist|
    else LastOf(hist[..|hist| - 1], id)
  }

  ghost predicate AllProper(cfg: Paths, hist: seq<Stored>) {
    forall i | 0 <= i < |hist| :: Proper(cfg, hist[i].snap)
  }

  // An entry nobody disturbed is a consistent picture of the host at lock time.
  ghost predicate AllFaithful(cfg: Paths, hist: seq<Stored>) {
    forall i | 0 <= i < |hist| && hist[i].clean :: Captured(cfg, hist[i].base, hist[i].snap)
  }

  // The store holds, under every recorded identifier, the last snapshot recorded with it.
  ghost predicate StoreIsLast(hist: seq<Stored>, store: map<string, Snapshot>) {
    forall id | LastOf(hist, id) > 0 :: id in store && store[id] == hist[LastOf(hist, id) - 1].snap
  }

  ghost predicate ProcShaped(cfg: Paths, hist: seq<Stored>, p: Proc) {
    InRange(p) && Shaped(cfg, p) && (p.StoreLatest? ==> LastOf(hist, p.snap.id) > 0)
  }

  ghost predicate AllShaped(cfg: Paths, s: Sys) {
    forall pid | pid in s.procs && s.procs[pid].Inside? :: ProcShaped(cfg, s.hist, s.procs[pid].proc)
  }

  ghost predicate Recorded(cfg: Paths, s: Sys) {
    AllProper(cfg, s.hist) && AllFaithful(cfg, s.hist) && StoreIsLast(s.hist, s.host.store) && AllShaped(cfg, s)
  }

  // `latest` is the pointer found at the start, or names a stored snapshot.
  ghost predicate Pointed(s: Sys, start: Option<string>) {
    s.host.latest == start || exists id :: s.host.latest == Some(id + "\n") && LastOf(s.hist, id) > 0
  }

  lemma LastOfNext(hist: seq<Stored>, entry: Stored, id: string)
    ensures LastOf(hist + [entry], id) == if entry.snap.id == id then |hist| + 1 else LastOf(hist, id)
  {
    assert (hist + [entry])[..|hist|] == hist;
  }

  lemma StoreIsLastNext(hist: seq<Stored>, store: map<string, Snapshot>, entry: Stored)
    requires StoreIsLast(hist, store)
    ensures StoreIsLast(hist + [entry], store[entry.snap.id := entry.snap])
  {
    hide LastOf;
    var longer, bigger := hist + [entry], store[entry.snap.id := entry.snap];
    forall id | LastOf(longer, id) > 0 ensures id in bigger && bigger[id] == longer[LastOf(longer, id) - 1].snap {
      LastOfNext(hist, entry, id);
    }
  }

  lemma StoringStep(cfg: Paths, h: State, p: Proc, a: Answer)
    requires p.StoreSnapshot? && a.ok
    ensures Step(cfg, h, p, a) == Moment(SaveSnapshot(h, p.snap, a), StoreLatest(p.plan, p.snap))
    ensures SaveSnapshot(h, p.snap, a).store == h.store[p.snap.id := p.snap]
    ensures SaveSnapshot(h, p.snap, a).latest == h.latest
  {
    hide Leave;
  }

  lemma StoringRecords(cfg: Paths, s: Sys, pid: Pid, a: Answer)
    requires Exclusive(s) && Recorded(cfg, s) && Undisturbed(cfg, s)
    requires pid in s.procs && s.procs[pid].Inside? && s.procs[pid].proc.StoreSnapshot? && a.ok
    ensures Recorded(cfg, OnAct(cfg, s, pid, a))
  {
    hide Proper, Captured, LastOf, Step, StoreIsLast, Admitted, InRange;
    var snap := s.procs[pid].proc.snap;
    var entry := Stored(snap, s.base, !s.disturbed);
    StoringStep(cfg, s.host, s.procs[pid].proc, a);
    StoreIsLastNext(s.hist, s.host.store, entry);
    LastOfNext(s.hist, entry, snap.id);
    assert ProcShaped(cfg, s.hist, s.procs[pid].proc);
    assert Proper(cfg, snap);
    assert entry.clean ==> Captured(cfg, s.base, snap);
    assert ProcShaped(cfg, s.hist + [entry], Step(cfg, s.host, s.procs[pid].proc, a).proc);
  }

  // No other step touches the store.
  lemma StoreUnchanged(cfg: Paths, h: State, p: Proc, a: Answer)
    requires InRange(p) && !(p.StoreSnapshot? && a.ok)
    ensures Step(cfg, h, p, a).host.store == h.store
    ensures !p.StoreLatest? ==> Step(cfg, h, p, a).host.latest == h.latest
    ensures !Step(cfg, h, p, a).proc.StoreLatest?
  {
    hide Next, SortedKeys, AssignedKeys, InRange;
    if p.Modprobe? || p.CheckBbr? || p.CaptureKey? || p.CaptureOwned? {
      CaptureIsNotStoring(cfg, h, p, a);
    } else {
      OthersShaped(cfg, h, p, a);
    }
  }

  lemma CaptureIsNotStoring(cfg: Paths, h: State, p: Proc, a: Answer)
    requires InRange(p) && (p.Modprobe? || p.CheckBbr? || p.CaptureKey? || p.CaptureOwned?)
    ensures !Next(cfg, h, p, a).StoreLatest?
  {
    hide SortedKeys, Fields, Normalize, FormatId, CaptureOne;
  }

  lemma ActingKeepsRecords(cfg: Paths, s: Sys, pid: Pid, a: Answer)
    requires Distinct(cfg) && Exclusive(s) && Recorded(cfg, s)
    requires pid in s.procs && s.procs[pid].Inside? && !(s.procs[pid].proc.StoreSnapshot? && a.ok)
    ensures Recorded(cfg, OnAct(cfg, s, pid, a))
  {
    hide Step, InRange, Admitted, Shaped, StoreIsLast, AllFaithful, AllProper, LastOf;
    var p := s.procs[pid].proc;
    assert ProcShaped(cfg, s.hist, p);
    StoreUnchanged(cfg, s.host, p, a);
    ShapedStep(cfg, s.host, p, a);
    assert ProcShaped(cfg, s.hist, Step(cfg, s.host, p, a).proc);
  }

  lemma AcquiringKeepsRecords(cfg: Paths, s: Sys, pid: Pid, a: Answer)
    requires Recorded(cfg, s) && pid in s.procs && s.procs[pid].Waiting?
    ensures Recorded(cfg, OnAcquire(s, pid, a))
  {
    hide ProcShaped, StoreIsLast, AllFaithful, AllProper, First, Admitted;
    if Admitted(s.procs[pid].op) {
      FirstShaped(cfg, s.procs[pid].op, s.hist);
    }
  }

  lemma RecordedStep(cfg: Paths, s: Sys, e: Event)
    requires Distinct(cfg) && Exclusive(s) && Undisturbed(cfg, s) && Recorded(cfg, s)
    ensures Recorded(cfg, OnEvent(cfg, s, e))
  {
    hide OnAct, OnAcquire, InRange, Undisturbed, Exclusive, ProcShaped, StoreIsLast, AllFaithful, AllProper;
    match e
    case Acquire(pid, a) => if pid in s.procs && s.procs[pid].Waiting? { AcquiringKeepsRecords(cfg, s, pid, a); }
    case Act(pid, a) =>
      if pid in s.procs && s.procs[pid].Inside? && InRange(s.procs[pid].proc) {
        if s.procs[pid].proc.StoreSnapshot? && a.ok {
          StoringRecords(cfg, s, pid, a);
        } else {
          ActingKeepsRecords(cfg, s, pid, a);
        }
      }
    case _ =>
  }

  lemma FirstShaped(cfg: Paths, op: Op, hist: seq<Stored>)
    requires Admitted(op)
    ensures ProcShaped(cfg, hist, First(op))
  {
    hide MatchesPattern;
  }

  // Everything that holds after every sequence of events.
  lemma {:induction false} RecordsHold(cfg: Paths, s: Sys, events: seq<Event>)
    requires Distinct(cfg) && Initial(s)
    ensures Recorded(cfg, Run(cfg, s, events))
  {
    hide OnEvent, Recorded, Undisturbed, Exclusive;
    if events == [] {
      assert Recorded(cfg, s) by { NothingRecorded(cfg, s); }
    } else {
      RecordsHold(cfg, s, events[..|events| - 1]);
      SectionInvariant(cfg, s, events[..|events| - 1]);
      RecordedStep(cfg, Run(cfg, s, events[..|events| - 1]), events[|events| - 1]);
    }
  }

  lemma NothingRecorded(cfg: Paths, s: Sys)
    requires Initial(s)
    ensures Recorded(cfg, s)
  {
  }

  // ---------- the latest pointer ----------

  lemma LastOfGrows(hist: seq<Stored>, entry: Stored, id: string)
    ensures LastOf(hist, id) > 0 ==> LastOf(hist + [entry], id) > 0
  {
    LastOfNext(hist, entry, id);
  }

  lemma LatestStep(cfg: Paths, h: State, p: Proc, a: Answer)
    requires p.StoreLatest?
    ensures Step(cfg, h, p, a).host.latest == if a.ok then Some(p.snap.id + "\n") else h.latest
  {
  }

  lemma PointedStep(cfg: Paths, s: Sys, e: Event, start: Option<string>)
    requires Exclusive(s) && Recorded(cfg, s) && Pointed(s, start)
    ensures Pointed(OnEvent(cfg, s, e), start)
  {
    hide Step, InRange, Admitted, Shaped, StoreIsLast, AllFaithful, AllProper, LastOf, First;
    if e.Act? && e.pid in s.procs && s.procs[e.pid].Inside? {
      var p := s.procs[e.pid].proc;
      assert ProcShaped(cfg, s.hist, p);
      if p.StoreSnapshot? && e.answer.ok {
        var entry := Stored(p.snap, s.base, !s.disturbed);
        StoringStep(cfg, s.host, p, e.answer);
        if s.host.latest != start {
          var id :| s.host.latest == Some(id + "\n") && LastOf(s.hist, id) > 0;
          LastOfGrows(s.hist, entry, id);
        }
      } else {
        StoreUnchanged(cfg, s.host, p, e.answer);
        if p.StoreLatest? { LatestStep(cfg, s.host, p, e.answer); }
      }
    }
  }

  lemma {:induction false} PointerHolds(cfg: Paths, s: Sys, events: seq<Event>)
    requires Distinct(cfg) && Initial(s)
    ensures Pointed(Run(cfg, s, events), s.host.latest)
  {
    hide OnEvent, Recorded, Exclusive, LastOf;
    if events != [] {
      PointerHolds(cfg, s, events[..|events| - 1]);
      MutualExclusion(cfg, s, events[..|events| - 1]);
      RecordsHold(cfg, s, events[..|events| - 1]);
      PointedStep(cfg, Run(cfg, s, events[..|events| - 1]), events[|events| - 1], s.host.latest);
    }
  }

  // `latest` names a stored record that passes the tool's own test.
  ghost predicate NamesRecord(cfg: Paths, h: State) {
    h.latest.Some? && Acceptable(cfg, h, TrimEdges(h.latest.value))
  }

  ghost predicate Acceptable(cfg: Paths, h: State, id: string) {
    && id in h.store && SnapshotTest(cfg, h.store[id])
    && h.store[id].version == SNAPSHOT_VERSION && h.store[id].id == id
  }

  // Records found at the start are still there, or replaced by a recorded snapshot.
  ghost predicate StoreKept(start: State, s: Sys) {
    forall id | id in start.store ::
      id in s.host.store && (LastOf(s.hist, id) == 0 ==> s.host.store[id] == start.store[id])
  }

  lemma StoringKeeps(cfg: Paths, s: Sys, pid: Pid, a: Answer, start: State)
    requires StoreKept(start, s) && pid in s.procs && s.procs[pid].Inside? && InRange(s.procs[pid].proc)
    requires s.procs[pid].proc.StoreSnapshot? && a.ok
    ensures StoreKept(start, OnAct(cfg, s, pid, a))
  {
    hide Step, InRange, LastOf, SaveSnapshot, WithAnswer;
    var p := s.procs[pid].proc;
    StoringStep(cfg, s.host, p, a);
    var entry := Stored(p.snap, s.base, !s.disturbed);
    forall id ensures LastOf(s.hist + [entry], id) == if p.snap.id == id then |s.hist| + 1 else LastOf(s.hist, id) {
      LastOfNext(s.hist, entry, id);
    }
  }

  lemma StoreKeptStep(cfg: Paths, s: Sys, e: Event, start: State)
    requires Exclusive(s) && StoreKept(start, s)
    ensures StoreKept(start, OnEvent(cfg, s, e))
  {
    hide Step, InRange, Admitted, LastOf, First, SaveSnapshot, WithAnswer;
    if e.Act? && e.pid in s.procs && s.procs[e.pid].Inside? && !s.procs[e.pid].proc.Finished? {
      var p := s.procs[e.pid].proc;
      if p.StoreSnapshot? && e.answer.ok {
        StoringKeeps(cfg, s, e.pid, e.answer, start);
      } else {
        StoreUnchanged(cfg, s.host, p, e.answer);
      }
    }
  }

  lemma {:induction false} StoreKeptThroughout(cfg: Paths, s: Sys, events: seq<Event>)
    requires Initial(s)
    ensures StoreKept(s.host, Run(cfg, s, events))
  {
    hide OnEvent, Exclusive, LastOf;
    if events != [] {
      StoreKeptThroughout(cfg, s, events[..|events| - 1]);
      MutualExclusion(cfg, s, events[..|events| - 1]);
      StoreKeptStep(cfg, Run(cfg, s, events[..|events| - 1]), events[|events| - 1], s.host);
    }
  }

  lemma LastIsAcceptable(cfg: Paths, s: Sys, id: string)
    requires Recorded(cfg, s) && LastOf(s.hist, id) > 0
    ensures Acceptable(cfg, s.host, id) && IsId(id)
  {
    hide SnapshotTest, IsId, LastOf, AllShaped, AllFaithful;
    LastOfNames(s.hist, id);
    assert Proper(cfg, s.hist[LastOf(s.hist, id) - 1].snap);
  }

  // From a host without a pointer, or with one that names an acceptable record, `latest`
  // never dangles: through every interleaving, death and edit it names a stored record that
  // passes the tool's own test, readable exactly if its identifier fits the pattern, which
  // one written by a run does exactly while the clock stays within four-digit years.
  lemma LatestNeverDangles(cfg: Paths, s: Sys, events: seq<Event>)
    requires Distinct(cfg) && Initial(s) && (s.host.latest.Some? ==> NamesRecord(cfg, s.host))
    ensures var h := Run(cfg, s, events).host;
            h.latest.Some? ==>
              && NamesRecord(cfg, h)
              && (Readable(h, TrimEdges(h.latest.value)) <==> MatchesPattern(TrimEdges(h.latest.value)))
              && (h.latest == s.host.latest
                  || exists t: Stamp :: TrimEdges(h.latest.value) == FormatId(t)
                                        && (MatchesPattern(FormatId(t)) <==> t.year <= 9999))
  {
    hide Run, SnapshotTest, FormatId, TrimEdges, MatchesPattern, LastOf, Recorded, IsId;
    PointerHolds(cfg, s, events);
    RecordsHold(cfg, s, events);
    StoreKeptThroughout(cfg, s, events);
    var now := Run(cfg, s, events);
    if now.host.latest.Some? {
      var name := TrimEdges(now.host.latest.value);
      if now.host.latest != s.host.latest {
        var id :| now.host.latest == Some(id + "\n") && LastOf(now.hist, id) > 0;
        LastIsAcceptable(cfg, now, id);
        PointerIsTrimmed(id);
      } else if LastOf(now.hist, name) > 0 {
        LastIsAcceptable(cfg, now, name);
      }
    }
  }

  lemma PointerIsTrimmed(id: string)
    requires IsId(id)
    ensures TrimEdges(id + "\n") == id
    ensures exists t: Stamp :: id == FormatId(t) && (MatchesPattern(FormatId(t)) <==> t.year <= 9999)
  {
    hide FormatId, TrimEdges, MatchesPattern;
    var t: Stamp :| id == FormatId(t);
    LatestRoundTrip(t);
    IdAcceptedIff(t);
  }

  lemma LastOfNames(hist: seq<Stored>, id: string)
    requires LastOf(hist, id) > 0
    ensures hist[LastOf(hist, id) - 1].snap.id == id
  {
  }

  // ---------- time travel ----------

  lemma LastOfUnique(hist: seq<Stored>, k: nat, id: string)
    requires k < |hist| && hist[k].snap.id == id && forall i | k < i < |hist| :: hist[i].snap.id != id
    ensures LastOf(hist, id) == k + 1
  {
    hide LastOf;
  }

  // After any sequence of Apply and Rollback processes, deaths and outside edits: a
  // Rollback that reports no error, in a section nobody disturbed, has put the host
  // into the state of the last snapshot stored under the identifier it reports; if
  // that is the k-th one and its capture was undisturbed, the managed sysctls and
  // both files are as they were when the k-th Apply took the lock, the very same nodes
  // exactly if their modes had no bit above the permissions.
  lemma TimeTravel(cfg: Paths, s: Sys, events: seq<Event>, pid: Pid, k: nat)
    requires Distinct(cfg) && Initial(s)
    requires var now := Run(cfg, s, events);
             && now.holder == Some(pid) && !now.disturbed
             && pid in now.procs && now.procs[pid].Inside? && now.procs[pid].op.RollbackOp?
             && now.procs[pid].proc.Finished? && now.procs[pid].proc.report.NoError()
             && k < |now.hist| && now.hist[k].snap.id == now.procs[pid].proc.report.snapshotId
             && forall i | k < i < |now.hist| :: now.hist[i].snap.id != now.hist[k].snap.id
    ensures var now := Run(cfg, s, events);
            && Denotes(now.base, now.procs[pid].op.id, now.hist[k].snap.id)
            && Agrees(now.host, now.hist[k].snap)
            && (now.hist[k].clean ==>
                  && SameManaged(cfg, now.hist[k].base, now.host)
                  && (SameNodes(cfg, now.hist[k].base, now.host) <==> PlainModes(cfg, now.hist[k].base)))
  {
    hide Run, Recorded, Inv, Agrees, SameManaged, SameNodes, PlainModes, Denotes, Captured;
    var now := Run(cfg, s, events);
    SectionInvariant(cfg, s, events);
    RecordsHold(cfg, s, events);
    assert Inv(cfg, now.procs[pid].op, now.base, now.host, now.procs[pid].proc);
    FinishedRollback(cfg, now.procs[pid].op, now.base, now.host, now.procs[pid].proc.report);
    BackAtEntry(cfg, now, k);
  }

  lemma FinishedRollback(cfg: Paths, op: Op, b: State, h: State, report: Report)
    requires op.RollbackOp? && report.NoError() && Inv(cfg, op, b, h, Finished(report))
    ensures Denotes(b, op.id, report.snapshotId)
    ensures report.snapshotId in h.store && SnapshotTest(cfg, h.store[report.snapshotId])
    ensures Agrees(h, h.store[report.snapshotId])
  {
    hide Agrees, SnapshotTest, Denotes, MatchesPattern;
  }

  lemma BackAtEntry(cfg: Paths, s: Sys, k: nat)
    requires Recorded(cfg, s) && k < |s.hist|
    requires forall i | k < i < |s.hist| :: s.hist[i].snap.id != s.hist[k].snap.id
    requires s.hist[k].snap.id in s.host.store
    requires SnapshotTest(cfg, s.host.store[s.hist[k].snap.id]) && Agrees(s.host, s.host.store[s.hist[k].snap.id])
    ensures Agrees(s.host, s.hist[k].snap)
    ensures s.hist[k].clean ==>
              && SameManaged(cfg, s.hist[k].base, s.host)
              && (SameNodes(cfg, s.hist[k].base, s.host) <==> PlainModes(cfg, s.hist[k].base))
  {
    hide Agrees, TakenOf, SnapshotTest, SameManaged, SameNodes, PlainModes, LastOf, AllShaped, AllProper;
    LastOfUnique(s.hist, k, s.hist[k].snap.id);
    assert s.host.store[s.hist[k].snap.id] == s.hist[k].snap;
    if s.hist[k].clean {
      assert Captured(cfg, s.hist[k].base, s.hist[k].snap);
      AgreementIsState(cfg, s.hist[k].base, s.host, s.hist[k].snap);
    }
  }

  // If the captures read different clocks, no run loses a record: every snapshot ever
  // stored is still in the store, under its own identifier.
  lemma DistinctClocksKeepEveryRecord(cfg: Paths, s: Sys, events: seq<Event>, clocks: seq<Stamp>)
    requires Distinct(cfg) && Initial(s)
    requires var hist := Run(cfg, s, events).hist;
             && |clocks| == |hist| && (forall i | 0 <= i < |hist| :: hist[i].snap.id == FormatId(clocks[i]))
             && forall i, j | 0 <= i < j < |clocks| :: clocks[i] != clocks[j]
    ensures var now := Run(cfg, s, events);
            forall k | 0 <= k < |now.hist| ::
              now.hist[k].snap.id in now.host.store && now.host.store[now.hist[k].snap.id] == now.hist[k].snap
  {
    hide Run, FormatId, LastOf, AllProper, AllFaithful, AllShaped;
    RecordsHold(cfg, s, events);
    var now := Run(cfg, s, events);
    forall k | 0 <= k < |now.hist|
      ensures now.hist[k].snap.id in now.host.store && now.host.store[now.hist[k].snap.id] == now.hist[k].snap
    {
      forall i | k < i < |now.hist| ensures now.hist[i].snap.id != now.hist[k].snap.id {
        if now.hist[i].snap.id == now.hist[k].snap.id { FormatIdInjective(clocks[k], clocks[i]); }
      }
      LastOfUnique(now.hist, k, now.hist[k].snap.id);
    }
  }

  // At every moment of every run, an undisturbed Apply in its section has changed
  // nothing yet, or `latest` names a complete record of the host at lock time.
  lemma WriteAheadAlways(cfg: Paths, s: Sys, events: seq<Event>)
    requires Distinct(cfg) && Initial(s)
    ensures var now := Run(cfg, s, events);
            now.holder.Some? && !now.disturbed && now.holder.value in now.procs && now.procs[now.holder.value].op.ApplyOp?
            ==> Recoverable(cfg, now.base, now.host)
  {
    hide Run, Recoverable, Inv;
    SectionInvariant(cfg, s, events);
    var now := Run(cfg, s, events);
    if now.holder.Some? && !now.disturbed && now.procs[now.holder.value].op.ApplyOp? {
      RecoverableThroughout(cfg, now.procs[now.holder.value].op, now.base, now.host, now.procs[now.holder.value].proc);
    }
  }

  // ---------- serialisability ----------

  // One process alone, fed a list of answers.
  ghost function Alone(cfg: Paths, h: State, p: Proc, answers: seq<Answer>): (r: Moment)
    requires InRange(p)
    ensures InRange(r.proc)
  {
    if answers == [] then Moment(h, p)
    else
      var m := Alone(cfg, h, p, answers[..|answers| - 1]);
      Step(cfg, m.host, m.proc, answers[|answers| - 1])
  }

  lemma FirstInRange(op: Op)
    ensures InRange(First(op))
  {
    hide MatchesPattern;
  }

  // One whole section alone.
  ghost function SectionAlone(cfg: Paths, h: State, op: Op, answers: seq<Answer>): Moment {
    FirstInRange(op);
    Alone(cfg, h, First(op), answers)
  }

  ghost function AfterItem(cfg: Paths, before: State, item: Item): State {
    match item
    case Edited(edit) => Edit(before, edit)
    case Ran(op, answers) => SectionAlone(cfg, before, op, answers).host
  }

  // The sections of the log one after another, each running alone, with the edits in between.
  ghost function Serial(cfg: Paths, h: State, log: seq<Item>): State {
    if log == [] then h else AfterItem(cfg, Serial(cfg, h, log[..|log| - 1]), log[|log| - 1])
  }

  // A finished process reported what its section reports when it runs alone in its place.
  ghost predicate ReportedAlone(cfg: Paths, h: State, log: seq<Item>, stage: Stage)
    requires stage.Over?
  {
    stage.had.Some? ==>
      && stage.had.value < |log| && log[stage.had.value].Ran? && log[stage.had.value].op == stage.op
      && SectionAlone(cfg, Serial(cfg, h, log[..stage.had.value]), stage.op, log[stage.had.value].answers).proc
         == Finished(stage.report)
  }

  // The part of the log that no step can touch any more.
  function Closed(s: Sys): seq<Item> {
    if s.holder.Some? && s.log != [] then s.log[..|s.log| - 1] else s.log
  }

  ghost predicate AllReported(cfg: Paths, h: State, s: Sys) {
    forall pid | pid in s.procs && s.procs[pid].Over? :: ReportedAlone(cfg, h, Closed(s), s.procs[pid])
  }

  // The interleaved system has reached exactly what the serial order gives, the process in
  // its section is where it would be had it run alone after the others, and every finished
  // process got the report it would have got.
  ghost predicate Serialised(cfg: Paths, h: State, s: Sys) {
    s.interfered ||
    (&& s.host == Serial(cfg, h, s.log)
     && AllReported(cfg, h, s)
     && (s.holder.Some? && s.holder.value in s.procs && s.procs[s.holder.value].Inside? ==>
           && s.log != [] && s.log[|s.log| - 1].Ran? && s.procs[s.holder.value].slot == |s.log| - 1
           && s.log[|s.log| - 1].op == s.procs[s.holder.value].op
           && SectionAlone(cfg, Serial(cfg, h, s.log[..|s.log| - 1]), s.procs[s.holder.value].op, s.log[|s.log| - 1].answers)
              == Moment(s.host, s.procs[s.holder.value].proc)))
  }

  lemma ReportedInLonger(cfg: Paths, h: State, log: seq<Item>, longer: seq<Item>, stage: Stage)
    requires stage.Over? && ReportedAlone(cfg, h, log, stage) && log <= longer
    ensures ReportedAlone(cfg, h, longer, stage)
  {
    hide SectionAlone, Serial;
    if stage.had.Some? { assert longer[..stage.had.value] == log[..stage.had.value]; }
  }

  // Finished processes keep their reports while the log only grows at its open end.
  lemma ReportsStay(cfg: Paths, h: State, s: Sys, t: Sys)
    requires AllReported(cfg, h, s) && Closed(s) <= Closed(t)
    requires forall pid | pid in t.procs && t.procs[pid].Over? && t.procs[pid].had.Some? ::
               pid in s.procs && s.procs[pid] == t.procs[pid]
    ensures AllReported(cfg, h, t)
  {
    hide SectionAlone, Serial;
    forall pid | pid in t.procs && t.procs[pid].Over? ensures ReportedAlone(cfg, h, Closed(t), t.procs[pid]) {
      if t.procs[pid].had.Some? { ReportedInLonger(cfg, h, Closed(s), Closed(t), s.procs[pid]); }
    }
  }

  lemma SerialRelease(cfg: Paths, h: State, s: Sys, pid: Pid)
    requires Exclusive(s) && Serialised(cfg, h, s) && !s.interfered
    requires pid in s.procs && s.procs[pid].Inside? && s.procs[pid].proc.Finished?
    ensures Serialised(cfg, h, OnEvent(cfg, s, Release(pid)))
  {
    hide SectionAlone, Serial, Step, InRange, Admitted;
    var t := OnEvent(cfg, s, Release(pid));
    assert s.holder == Some(pid) && t.holder == None;
    forall other | other in t.procs && t.procs[other].Over? ensures ReportedAlone(cfg, h, Closed(t), t.procs[other]) {
      if other != pid { ReportedInLonger(cfg, h, Closed(s), Closed(t), s.procs[other]); }
    }
  }

  lemma SerialSnoc(cfg: Paths, h: State, log: seq<Item>, item: Item)
    ensures (log + [item])[..|log|] == log
    ensures Serial(cfg, h, log + [item]) == AfterItem(cfg, Serial(cfg, h, log), item)
  {
    hide SectionAlone;
    assert (log + [item])[..|log|] == log;
  }

  lemma AloneSnoc(cfg: Paths, h: State, p: Proc, answers: seq<Answer>, a: Answer)
    requires InRange(p)
    ensures var m := Alone(cfg, h, p, answers); Alone(cfg, h, p, answers + [a]) == Step(cfg, m.host, m.proc, a)
  {
    hide Step, InRange;
    assert (answers + [a])[..|answers|] == answers;
  }

  lemma SerialAct(cfg: Paths, h: State, s: Sys, pid: Pid, a: Answer)
    requires Exclusive(s) && Serialised(cfg, h, s) && !s.interfered
    requires pid in s.procs && s.procs[pid].Inside?
    ensures Serialised(cfg, h, OnAct(cfg, s, pid, a))
  {
    hide Step, InRange, First, Admitted, Alone, Serial;
    var last := s.log[|s.log| - 1];
    var before := s.log[..|s.log| - 1];
    assert s.holder == Some(pid);
    FirstInRange(last.op);
    AloneSnoc(cfg, Serial(cfg, h, before), First(last.op), last.answers, a);
    SerialSnoc(cfg, h, before, Ran(last.op, last.answers + [a]));
    assert OnAct(cfg, s, pid, a).log == before + [Ran(last.op, last.answers + [a])];
    ReportsStay(cfg, h, s, OnAct(cfg, s, pid, a));
  }

  lemma SerialAcquire(cfg: Paths, h: State, s: Sys, pid: Pid, a: Answer)
    requires Exclusive(s) && Serialised(cfg, h, s) && pid in s.procs && s.procs[pid].Waiting?
    ensures Serialised(cfg, h, OnAcquire(s, pid, a))
  {
    hide Step, InRange, First, Admitted, Serial;
    var op := s.procs[pid].op;
    FirstInRange(op);
    SerialSnoc(cfg, h, s.log, Ran(op, []));
    assert SectionAlone(cfg, Serial(cfg, h, s.log), op, []) == Moment(Serial(cfg, h, s.log), First(op));
    if !s.interfered { ReportsStay(cfg, h, s, OnAcquire(s, pid, a)); }
  }

  lemma SerialStep(cfg: Paths, h: State, s: Sys, e: Event)
    requires Exclusive(s) && Serialised(cfg, h, s)
    ensures Serialised(cfg, h, OnEvent(cfg, s, e))
  {
    hide OnAct, OnAcquire, InRange, First, SectionAlone, Serial, Admitted;
    match e
    case Acquire(pid, a) => if pid in s.procs && s.procs[pid].Waiting? { SerialAcquire(cfg, h, s, pid, a); }
    case Act(pid, a) =>
      if pid in s.procs && s.procs[pid].Inside? {
        if s.interfered {
          assert OnAct(cfg, s, pid, a).interfered by { ActKeepsInterfered(cfg, s, pid, a); }
        } else {
          SerialAct(cfg, h, s, pid, a);
        }
      }
    case Release(pid) =>
      if !s.interfered && pid in s.procs && s.procs[pid].Inside? && s.procs[pid].proc.Finished? {
        SerialRelease(cfg, h, s, pid);
      }
    case Change(edit) =>
      SerialSnoc(cfg, h, s.log, Edited(edit));
      if !OnEvent(cfg, s, e).interfered { ReportsStay(cfg, h, s, OnEvent(cfg, s, e)); }
    case Spawn(_, _) => if !s.interfered { ReportsStay(cfg, h, s, OnEvent(cfg, s, e)); }
    case Die(_) => if !s.interfered { ReportsStay(cfg, h, s, OnEvent(cfg, s, e)); }
  }

  lemma ActKeepsInterfered(cfg: Paths, s: Sys, pid: Pid, a: Answer)
    requires pid in s.procs && s.procs[pid].Inside? && InRange(s.procs[pid].proc)
    ensures OnAct(cfg, s, pid, a).interfered == s.interfered
  {
    hide Step, InRange;
  }

  // Any number of interleaved processes, with deaths and with edits while the lock is
  // free, leave the host as running their sections one at a time in lock order would.
  lemma {:induction false} Serialisability(cfg: Paths, s: Sys, events: seq<Event>)
    requires Initial(s)
    ensures Serialised(cfg, s.host, Run(cfg, s, events))
  {
    hide OnEvent, Serialised, Exclusive;
    if events == [] {
      assert Serialised(cfg, s.host, s) by { SerialisedAtStart(cfg, s); }
    } else {
      Serialisability(cfg, s, events[..|events| - 1]);
      MutualExclusion(cfg, s, events[..|events| - 1]);
      SerialStep(cfg, s.host, Run(cfg, s, events[..|events| - 1]), events[|events| - 1]);
    }
  }

  lemma SerialisedAtStart(cfg: Paths, s: Sys)
    requires Initial(s)
    ensures Serialised(cfg, s.host, s)
  {
    hide SectionAlone;
  }

  // Running alone on a list of answers is running under any schedule that begins with them.
  lemma {:induction false} AloneIsExec(cfg: Paths, h: State, p: Proc, answers: seq<Answer>, world: nat -> Answer, t: nat)
    requires InRange(p) && forall i: nat | i < |answers| :: world(t + i) == answers[i]
    ensures Alone(cfg, h, p, answers) == Exec(cfg, h, p, world, t, |answers|)
  {
    hide Step, InRange;
    if answers != [] {
      AloneIsExec(cfg, h, p, answers[..|answers| - 1], world, t);
      assert world(t + (|answers| - 1)) == answers[|answers| - 1];
    }
  }
}
