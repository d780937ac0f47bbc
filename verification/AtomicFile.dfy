/**
 atomicWrite in its own steps: temporary file, mode, bytes, flush, rename, and the
 deferred removal.  At every point, death included, the target is its old self or the
 complete new file; this is what lets the engine treat a write as one operation.
 */
module AtomicFile {
  import opened Wrappers
  import opened HostState

  type Files = map<string, Node>

  datatype Job = Job(path: string, temp: string, data: string, mode: nat)

  // What one system call answers: success, and how far a failing one got: how much of the
  // data a write left, how many directories from the top there are.
  datatype Reply = Reply(ok: bool, partial: nat)

  datatype Stage =
    | MakeDirectory | CreateTemp | SetMode | WriteData | Sync | Close | Rename
    | Cleanup(ok: bool) | Done(ok: bool)

  datatype Point = Point(files: Files, dirs: set<string>, stage: Stage)

  function TempNode(files: Files, job: Job): Node {
    if job.temp in files then files[job.temp] else Regular(384, "")
  }

  function Mode(node: Node): nat {
    if node.Regular? then node.mode else 384
  }

  function Prefix(data: string, n: nat): string {
    if n <= |data| then data[..n] else data
  }

  function Next(job: Job, p: Point, r: Reply): Point {
    var files, dirs := p.files, p.dirs;
    match p.stage
    case MakeDirectory =>
      if r.ok then Point(files, dirs + Above(job.path), CreateTemp)
      else Point(files, dirs + Tops(job.path, r.partial), Done(false))
    case CreateTemp =>
      if r.ok then Point(files[job.temp := Regular(384, "")], dirs, SetMode) else Point(files, dirs, Done(false))
    case SetMode =>
      if r.ok then Point(files[job.temp := Regular(job.mode, "")], dirs, WriteData) else Point(files, dirs, Cleanup(false))
    case WriteData =>
      var node := TempNode(files, job);
      if r.ok then Point(files[job.temp := Regular(Mode(node), job.data)], dirs, Sync)
      else Point(files[job.temp := Regular(Mode(node), Prefix(job.data, r.partial))], dirs, Cleanup(false))
    case Sync => Point(files, dirs, if r.ok then Close else Cleanup(false))
    case Close => Point(files, dirs, if r.ok then Rename else Cleanup(false))
    case Rename =>
      if r.ok then Point(files[job.path := TempNode(files, job)] - {job.temp}, dirs, Cleanup(true))
      else Point(files, dirs, Cleanup(false))
    case Cleanup(ok) => Point(if r.ok then files - {job.temp} else files, dirs, Done(ok))
    case Done(_) => p
  }

  // n steps, the first of them answered by call number t.
  ghost function Steps(job: Job, files: Files, dirs: set<string>, replies: nat -> Reply, t: nat, n: nat): Point {
    if n == 0 then Point(files, dirs, MakeDirectory)
    else Next(job, Steps(job, files, dirs, replies, t, n - 1), replies(t + n - 1))
  }

  ghost predicate Reached(job: Job, before: Files, start: set<string>, replies: nat -> Reply, t: nat, p: Point, u: nat) {
    t <= u && Steps(job, before, start, replies, t, u - t) == p
  }

  lemma OneMore(job: Job, before: Files, start: set<string>, replies: nat -> Reply, t: nat, p: Point, u: nat)
    requires Reached(job, before, start, replies, t, p, u)
    ensures Reached(job, before, start, replies, t, Next(job, p, replies(u)), u + 1)
  {
    hide Next;
  }

  // The temporary name is new, as CreateTemp guarantees.
  predicate Fresh(job: Job, files: Files) {
    job.temp != job.path && job.temp !in files
  }

  predicate Committed(stage: Stage) {
    stage == Cleanup(true) || stage == Done(true)
  }

  // The target holds the complete new file once the rename has happened and its old
  // self before; apart from the temporary name nothing else differs at any time.
  ghost predicate OldOrNew(job: Job, before: Files, p: Point) {
    p.files - {job.temp} ==
      (if Committed(p.stage) then before[job.path := Regular(job.mode, job.data)] else before)
  }

  ghost predicate TempAsExpected(job: Job, p: Point) {
    match p.stage
    case MakeDirectory => job.temp !in p.files
    case CreateTemp => job.temp !in p.files
    case SetMode => job.temp in p.files
    case WriteData => job.temp in p.files && p.files[job.temp] == Regular(job.mode, "")
    case Sync => job.temp in p.files && p.files[job.temp] == Regular(job.mode, job.data)
    case Close => job.temp in p.files && p.files[job.temp] == Regular(job.mode, job.data)
    case Rename => job.temp in p.files && p.files[job.temp] == Regular(job.mode, job.data)
    case Cleanup(ok) => job.temp in p.files <==> !ok
    case Done(ok) => ok ==> job.temp !in p.files
  }

  lemma NextKeeps(job: Job, before: Files, p: Point, r: Reply)
    requires Fresh(job, before) && OldOrNew(job, before, p) && TempAsExpected(job, p)
    ensures OldOrNew(job, before, Next(job, p, r)) && TempAsExpected(job, Next(job, p, r))
  {
    var q := Next(job, p, r);
    assert forall path | path != job.temp :: path in p.files <==> path in p.files - {job.temp};
    if p.stage == Rename && r.ok {
      assert q.files - {job.temp} == (p.files - {job.temp})[job.path := Regular(job.mode, job.data)];
    } else {
      assert q.files - {job.temp} == p.files - {job.temp};
    }
  }

  // Holds after any number of steps, that is at every point where the process can die.
  lemma {:induction false} AlwaysOldOrNew(job: Job, files: Files, dirs: set<string>, replies: nat -> Reply, t: nat, n: nat)
    requires Fresh(job, files)
    ensures OldOrNew(job, files, Steps(job, files, dirs, replies, t, n))
    ensures TempAsExpected(job, Steps(job, files, dirs, replies, t, n))
  {
    hide Next, OldOrNew, TempAsExpected;
    if n == 0 {
      StartIsOld(job, files, dirs);
    } else {
      AlwaysOldOrNew(job, files, dirs, replies, t, n - 1);
      NextKeeps(job, files, Steps(job, files, dirs, replies, t, n - 1), replies(t + n - 1));
    }
  }

  lemma StartIsOld(job: Job, files: Files, dirs: set<string>)
    requires Fresh(job, files)
    ensures OldOrNew(job, files, Point(files, dirs, MakeDirectory)) && TempAsExpected(job, Point(files, dirs, MakeDirectory))
  {
    assert files - {job.temp} == files;
  }

  // ---------- directories ----------

  // How many of the directories above the target there are after the first call.
  function LevelsOf(job: Job, r: Reply): nat {
    if r.ok then |Parents(job.path)| else r.partial
  }

  // Only the first call touches directories: it makes those above the target, as far as it gets.
  lemma {:induction false} DirectoriesAt(job: Job, files: Files, dirs: set<string>, replies: nat -> Reply, t: nat, n: nat)
    ensures Steps(job, files, dirs, replies, t, n).dirs ==
            if n == 0 then dirs else dirs + Tops(job.path, LevelsOf(job, replies(t)))
    ensures n == 0 <==> Steps(job, files, dirs, replies, t, n).stage.MakeDirectory?
    ensures n > 0 && !replies(t).ok ==> Steps(job, files, dirs, replies, t, n).stage == Done(false)
  {
    hide Tops, Parents;
    if n > 1 {
      DirectoriesAt(job, files, dirs, replies, t, n - 1);
    } else if n == 1 {
      assert Steps(job, files, dirs, replies, t, 0) == Point(files, dirs, MakeDirectory);
    }
  }

  // A write leaves the directories as they were exactly if those it came to had been there.
  lemma DirectoriesSameIff(job: Job, files: Files, dirs: set<string>, replies: nat -> Reply, t: nat, n: nat)
    ensures Steps(job, files, dirs, replies, t, n).dirs == dirs <==>
            n == 0 || Tops(job.path, LevelsOf(job, replies(t))) <= dirs
  {
    hide Tops, Parents, Steps;
    DirectoriesAt(job, files, dirs, replies, t, n);
  }

  // ---------- what is left behind ----------

  // The first k calls succeed.
  predicate Succeed(replies: nat -> Reply, t: nat, k: nat) {
    k == 0 || (Succeed(replies, t, k - 1) && replies(t + k - 1).ok)
  }

  lemma {:induction false} OneOfThem(replies: nat -> Reply, t: nat, i: nat, k: nat)
    requires i < k && Succeed(replies, t, k)
    ensures replies(t + i).ok
  {
    if i < k - 1 { OneOfThem(replies, t, i, k - 1); }
  }

  // The process runs into its first failure at call k, with the temporary file there, and
  // cannot remove it either.
  predicate FailsTwice(replies: nat -> Reply, t: nat, k: nat) {
    && 2 <= k <= 6 && Succeed(replies, t, k)
    && !replies(t + k).ok && !replies(t + k + 1).ok
  }

  // Before the first failure the calls go through the stages in order.
  function StageAt(i: nat): Stage {
    match i
    case 0 => MakeDirectory
    case 1 => CreateTemp
    case 2 => SetMode
    case 3 => WriteData
    case 4 => Sync
    case 5 => Close
    case 6 => Rename
    case _ => Cleanup(true)
  }

  lemma {:induction false} StagesInOrder(job: Job, files: Files, dirs: set<string>, replies: nat -> Reply, t: nat, n: nat)
    requires n <= 7 && Succeed(replies, t, n)
    ensures Steps(job, files, dirs, replies, t, n).stage == StageAt(n)
  {
    if n > 0 { StagesInOrder(job, files, dirs, replies, t, n - 1); }
  }

  // Done stays done.
  lemma {:induction false} DoneStays(job: Job, files: Files, dirs: set<string>, replies: nat -> Reply, t: nat, m: nat, n: nat)
    requires m <= n && Steps(job, files, dirs, replies, t, m).stage.Done?
    ensures Steps(job, files, dirs, replies, t, n) == Steps(job, files, dirs, replies, t, m)
  {
    if m < n { DoneStays(job, files, dirs, replies, t, m, n - 1); }
  }

  // After n calls, of which the k-th is the first to fail, the temporary file is there: from
  // its creation to the rename or the failure, then until the removal, and on if that fails.
  ghost predicate StrayAt(replies: nat -> Reply, t: nat, n: nat) {
    var k := FirstFailure(replies, t);
    && 2 <= k && 2 <= n
    && ((n <= k && n <= 6) || (k < 7 && (n == k + 1 || (n > k + 1 && !replies(t + k + 1).ok))))
  }

  // At every call, so wherever the process dies, the temporary file is there on exactly
  // this condition.
  lemma LeftAtIff(job: Job, files: Files, dirs: set<string>, replies: nat -> Reply, t: nat, n: nat)
    requires Fresh(job, files)
    ensures job.temp in Steps(job, files, dirs, replies, t, n).files <==> StrayAt(replies, t, n)
  {
    hide OldOrNew, Steps, Fresh;
    var k := FirstFailure(replies, t);
    if n <= k {
      SucceedFewer(replies, t, n, k);
      StagesInOrder(job, files, dirs, replies, t, n);
      AlwaysOldOrNew(job, files, dirs, replies, t, n);
    } else {
      AfterFirstFailure(job, files, dirs, replies, t, k);
      if n > k + 1 { DoneStays(job, files, dirs, replies, t, k + 2, n); }
    }
  }

  lemma {:induction false} SucceedFewer(replies: nat -> Reply, t: nat, n: nat, k: nat)
    requires n <= k && Succeed(replies, t, k)
    ensures Succeed(replies, t, n)
  {
    if n < k { SucceedFewer(replies, t, n, k - 1); }
  }

  // The two calls after the first failure, or after the last call of a write.
  lemma AfterFirstFailure(job: Job, files: Files, dirs: set<string>, replies: nat -> Reply, t: nat, k: nat)
    requires Fresh(job, files) && k <= 7 && Succeed(replies, t, k)
    requires k < 7 ==> !replies(t + k).ok
    ensures job.temp in Steps(job, files, dirs, replies, t, k + 1).files <==> 2 <= k < 7
    ensures Steps(job, files, dirs, replies, t, k + 2).stage.Done?
    ensures job.temp in Steps(job, files, dirs, replies, t, k + 2).files <==> 2 <= k < 7 && !replies(t + k + 1).ok
  {
    hide OldOrNew;
    StagesInOrder(job, files, dirs, replies, t, k);
    AlwaysOldOrNew(job, files, dirs, replies, t, k);
    var p := Steps(job, files, dirs, replies, t, k);
    var q := Steps(job, files, dirs, replies, t, k + 1);
    assert q == Next(job, p, replies(t + k));
    assert Steps(job, files, dirs, replies, t, k + 2) == Next(job, q, replies(t + k + 1));
  }

  // Two calls after the first failure, or after the last call, the write has returned.
  lemma EndsAfter(job: Job, files: Files, dirs: set<string>, replies: nat -> Reply, t: nat, k: nat)
    requires Fresh(job, files) && k <= 7 && Succeed(replies, t, k)
    requires k < 7 ==> !replies(t + k).ok
    ensures var p := Steps(job, files, dirs, replies, t, k + 2);
            p.stage.Done? && (job.temp in p.files <==> FailsTwice(replies, t, k))
  {
    AfterFirstFailure(job, files, dirs, replies, t, k);
  }

  // A write that has returned has left its temporary file exactly when it failed after
  // creating it and the deferred removal failed too.
  lemma LeftBehindIff(job: Job, files: Files, dirs: set<string>, replies: nat -> Reply, t: nat, n: nat)
    requires Fresh(job, files) && Steps(job, files, dirs, replies, t, n).stage.Done?
    ensures job.temp in Steps(job, files, dirs, replies, t, n).files <==> exists k :: FailsTwice(replies, t, k)
  {
    hide Steps, FailsTwice, Fresh;
    var k := FirstFailure(replies, t);
    EndsAfter(job, files, dirs, replies, t, k);
    if n <= k + 2 {
      DoneStays(job, files, dirs, replies, t, n, k + 2);
    } else {
      DoneStays(job, files, dirs, replies, t, k + 2, n);
    }
    forall i | FailsTwice(replies, t, i) ensures i == k { OneFirstFailure(replies, t, k, i); }
  }

  lemma OneFirstFailure(replies: nat -> Reply, t: nat, k: nat, i: nat)
    requires k <= 7 && Succeed(replies, t, k) && (k < 7 ==> !replies(t + k).ok)
    requires FailsTwice(replies, t, i)
    ensures i == k
  {
    if k < i {
      OneOfThem(replies, t, k, i);
    } else if i < k {
      OneOfThem(replies, t, i, k);
    }
  }

  // The call that fails first, or 7 if the seven calls of a write all succeed.
  ghost function FirstFailure(replies: nat -> Reply, t: nat): (k: nat)
    ensures k <= 7 && Succeed(replies, t, k) && (k < 7 ==> !replies(t + k).ok)
  {
    FirstFrom(replies, t, 0)
  }

  ghost function FirstFrom(replies: nat -> Reply, t: nat, i: nat): (k: nat)
    requires i <= 7 && Succeed(replies, t, i)
    ensures k <= 7 && Succeed(replies, t, k) && (k < 7 ==> !replies(t + k).ok)
    decreases 7 - i
  {
    if i == 7 || !replies(t + i).ok then i else FirstFrom(replies, t, i + 1)
  }

  // Nothing is put in place before it has been written in full and flushed: a write that has
  // changed its target has made all seven calls, the fifth of them on the complete file.
  lemma FlushedBeforeRename(job: Job, files: Files, dirs: set<string>, replies: nat -> Reply, t: nat, n: nat)
    requires Fresh(job, files) && Committed(Steps(job, files, dirs, replies, t, n).stage)
    ensures n >= 7 && Succeed(replies, t, 7)
    ensures var p := Steps(job, files, dirs, replies, t, 4);
            && p.stage == Sync && replies(t + 4).ok
            && job.temp in p.files && p.files[job.temp] == Regular(job.mode, job.data)
    ensures Steps(job, files, dirs, replies, t, 6).stage == Rename
  {
    hide OldOrNew, Steps, Fresh, Succeed;
    var k := FirstFailure(replies, t);
    if n <= k {
      SucceedFewer(replies, t, n, k);
      StagesInOrder(job, files, dirs, replies, t, n);
    } else if k < 7 {
      NotCommitted(job, files, dirs, replies, t, k, n);
    }
    SucceedFewer(replies, t, 4, 7);
    SucceedFewer(replies, t, 6, 7);
    StagesInOrder(job, files, dirs, replies, t, 4);
    StagesInOrder(job, files, dirs, replies, t, 6);
    OneOfThem(replies, t, 4, 7);
    AlwaysOldOrNew(job, files, dirs, replies, t, 4);
  }

  lemma {:induction false} NotCommitted(job: Job, files: Files, dirs: set<string>, replies: nat -> Reply, t: nat, k: nat, n: nat)
    requires k < 7 && k < n && Succeed(replies, t, k) && !replies(t + k).ok
    ensures var stage := Steps(job, files, dirs, replies, t, n).stage; stage == Cleanup(false) || stage == Done(false)
  {
    if n == k + 1 {
      StagesInOrder(job, files, dirs, replies, t, k);
    } else {
      NotCommitted(job, files, dirs, replies, t, k, n - 1);
    }
  }

  // ---------- the write as one operation ----------

  ghost predicate FreshOn(job: Job, h: State) {
    Fresh(job, h.files) && job.temp !in h.strays
  }

  // A temporary file that exists is a stray.
  function Strays(job: Job, strays: Files, files: Files): Files {
    if job.temp in files then strays[job.temp := files[job.temp]] else strays
  }

  // The host after n system calls of a write, whether it goes on, returns or dies there.
  ghost function After(job: Job, h: State, replies: nat -> Reply, t: nat, n: nat): State {
    var p := Steps(job, h.files, h.dirs, replies, t, n);
    h.(files := p.files - {job.temp}, dirs := p.dirs, strays := Strays(job, h.strays, p.files))
  }

  // The answer that sums up a write which got as far as p, its first call answered by r.
  function Summary(job: Job, p: Point, r: Reply): Answer {
    Answer(Committed(p.stage), map[], "", SOME_TIME, {},
           if job.temp in p.files then Some(Stray(job.temp, p.files[job.temp])) else None,
           if p.stage.MakeDirectory? then 0 else LevelsOf(job, r))
  }

  lemma SummaryLeaves(job: Job, strays: Files, p: Point, r: Reply)
    requires job.temp !in strays && TempAsExpected(job, p)
    ensures Leave(strays, Summary(job, p, r)) == Strays(job, strays, p.files)
  {
  }

  lemma SummaryReaches(job: Job, files: Files, dirs: set<string>, replies: nat -> Reply, t: nat, n: nat)
    ensures var p := Steps(job, files, dirs, replies, t, n);
            p.dirs == dirs + Reach(job.path, Summary(job, p, replies(t)))
  {
    hide Steps, Tops, Parents;
    DirectoriesAt(job, files, dirs, replies, t, n);
    TopsAreAbove(job.path, 0);
    assert Tops(job.path, 0) == {} by { NoTops(job.path); }
  }

  lemma NoTops(path: string)
    ensures Tops(path, 0) == {}
  {
  }

  // At every system call the host is as one operation of the engine leaves it: the target
  // old or complete, and a temporary file where there is one.
  lemma WriteIsOneOperation(job: Job, h: State, replies: nat -> Reply, t: nat, n: nat)
    requires FreshOn(job, h)
    ensures var a := Summary(job, Steps(job, h.files, h.dirs, replies, t, n), replies(t));
            After(job, h, replies, t, n) == PutFile(h, job.path, job.data, job.mode, a)
  {
    hide Steps, Reach, Leave, Strays, TempAsExpected;
    AlwaysOldOrNew(job, h.files, h.dirs, replies, t, n);
    SummaryLeaves(job, h.strays, Steps(job, h.files, h.dirs, replies, t, n), replies(t));
    SummaryReaches(job, h.files, h.dirs, replies, t, n);
  }

  // The same sequence as the program runs it, with its deferred removal.
  class Disk {
    var files: Files
    var dirs: set<string>
    var calls: nat
    const replies: nat -> Reply

    constructor (files: Files, dirs: set<string>, replies: nat -> Reply)
      ensures this.files == files && this.dirs == dirs && this.calls == 0 && this.replies == replies
    {
      this.files, this.dirs, this.calls, this.replies := files, dirs, 0, replies;
    }

    method Call() returns (r: Reply)
      modifies `calls
      ensures r == replies(old(calls)) && calls == old(calls) + 1
    {
      r := replies(calls);
      calls := calls + 1;
    }

    // Mode and bytes; false at the first failure.
    method Fill(job: Job, ghost before: Files, ghost start: set<string>, ghost t: nat) returns (ok: bool)
      requires Reached(job, before, start, replies, t, Point(files, dirs, SetMode), calls)
      modifies this
      ensures Reached(job, before, start, replies, t, Point(files, dirs, if ok then Sync else Cleanup(false)), calls)
      ensures ok ==> job.temp in files && files[job.temp] == Regular(job.mode, job.data)
    {
      hide Reached;
      OneMore(job, before, start, replies, t, Point(files, dirs, SetMode), calls);
      var r := Call();
      if !r.ok { return false; }
      files := files[job.temp := Regular(job.mode, "")];
      OneMore(job, before, start, replies, t, Point(files, dirs, WriteData), calls);
      r := Call();
      var data := if r.ok then job.data else Prefix(job.data, r.partial);
      files := files[job.temp := Regular(job.mode, data)];
      return r.ok;
    }

    // Flush, close and rename; false at the first failure.
    method Publish(job: Job, ghost before: Files, ghost start: set<string>, ghost t: nat) returns (ok: bool)
      requires Reached(job, before, start, replies, t, Point(files, dirs, Sync), calls)
      requires job.temp in files
      modifies this
      ensures Reached(job, before, start, replies, t, Point(files, dirs, Cleanup(ok)), calls)
    {
      hide Reached;
      OneMore(job, before, start, replies, t, Point(files, dirs, Sync), calls);
      var r := Call();
      if !r.ok { return false; }
      OneMore(job, before, start, replies, t, Point(files, dirs, Close), calls);
      r := Call();
      if !r.ok { return false; }
      OneMore(job, before, start, replies, t, Point(files, dirs, Rename), calls);
      r := Call();
      if !r.ok { return false; }
      files := files[job.path := files[job.temp]] - {job.temp};
      return true;
    }

    method AtomicWrite(job: Job) returns (ok: bool)
      requires Fresh(job, files)
      modifies this
      ensures Reached(job, old(files), old(dirs), replies, old(calls), Point(files, dirs, Done(ok)), calls)
      ensures ok ==> files == old(files)[job.path := Regular(job.mode, job.data)]
      ensures !ok ==> files - {job.temp} == old(files)
      ensures dirs == old(dirs) + Tops(job.path, LevelsOf(job, replies(old(calls))))
      ensures dirs == old(dirs) <==> Tops(job.path, LevelsOf(job, replies(old(calls)))) <= old(dirs)
      ensures job.temp in files <==> exists k :: FailsTwice(replies, old(calls), k)
    {
      hide Next, FailsTwice, Tops, Parents;
      ghost var before, start, t := files, dirs, calls;
      ok := Attempt(job, before, start, t);
      AlwaysOldOrNew(job, before, start, replies, t, calls - t);
      DirectoriesAt(job, before, start, replies, t, calls - t);
      LeftBehindIff(job, before, start, replies, t, calls - t);
      if ok { assert files - {job.temp} == files; }
    }

    method Attempt(job: Job, ghost before: Files, ghost start: set<string>, ghost t: nat) returns (ok: bool)
      requires Reached(job, before, start, replies, t, Point(files, dirs, MakeDirectory), calls)
      modifies this
      ensures Reached(job, before, start, replies, t, Point(files, dirs, Done(ok)), calls)
    {
      hide Reached;
      OneMore(job, before, start, replies, t, Point(files, dirs, MakeDirectory), calls);
      var r := Call();
      if !r.ok {
        dirs := dirs + Tops(job.path, r.partial);
        return false;
      }
      dirs := dirs + Above(job.path);
      OneMore(job, before, start, replies, t, Point(files, dirs, CreateTemp), calls);
      r := Call();
      if !r.ok { return false; }
      files := files[job.temp := Regular(384, "")];
      ok := Fill(job, before, start, t);
      if ok { ok := Publish(job, before, start, t); }
      OneMore(job, before, start, replies, t, Point(files, dirs, Cleanup(ok)), calls);
      r := Call();
      if r.ok { files := files - {job.temp}; }
    }
  }
}
