/**
 The part of the host the tool reads and writes, the answers the outside world gives
 to each command and file operation, and the effect of one such operation.
 */
module HostState {
  import opened Wrappers
  import opened Text
  import opened Sorting
  import opened Recommend
  import opened Config
  import opened SnapshotId

  // A path holds a regular file or something else.  Reading through the latter may or may
  // not deliver text; a dangling symbolic link is there, yet reading it finds nothing.
  datatype Node = Regular(mode: nat, data: string) | Other(readable: Option<string>) | Dangling

  datatype FileSnapshot = FileSnapshot(path: string, present: bool, mode: nat, data: string)

  datatype Snapshot = Snapshot(version: int, id: string, sysctls: Values, files: map<string, FileSnapshot>)

  const SNAPSHOT_VERSION := 1

  // Snapshots are stored under their identifier; `latest` is the pointer's raw text.  The
  // temporary files of atomic writes, under names of their own, are kept apart as strays;
  // `dirs` are the directories there are.  The lock files and what lies in the state
  // directory are no part of `files`.
  datatype State = State(
    sysctls: Values, available: string, files: map<string, Node>, dirs: set<string>, strays: map<string, Node>,
    store: map<string, Snapshot>, latest: Option<string>)

  datatype Paths = Paths(sysctlFile: string, modulesFile: string, stateDir: string, lockFile: string)

  // The two owned files are different files.
  predicate Distinct(cfg: Paths) {
    cfg.sysctlFile != cfg.modulesFile
  }

  predicate Under(root: string, path: string) {
    path == root || HasPrefix(path, root + "/")
  }

  // Nothing is claimed about the lock file, the state directory and what lies above them.
  predicate ExemptPath(cfg: Paths, path: string) {
    path == cfg.lockFile || Under(cfg.stateDir, path)
  }

  predicate ExemptDir(cfg: Paths, dir: string) {
    dir in Above(cfg.lockFile) || dir in Above(cfg.stateDir) || Under(cfg.stateDir, dir)
  }

  // The permission bits are all a snapshot keeps of a mode.
  function Perm(mode: nat): (p: nat)
    ensures p < 512
    ensures p == p % 512
  {
    mode % 512
  }

  // The bits above the permissions, as the file mode flags of a record encode them.
  function Flags(mode: nat): (f: nat)
    ensures f % 512 == 0
    ensures mode < 512 ==> f == 0
  {
    2048 * (mode / 0x80_0000 % 2) + 1024 * (mode / 0x40_0000 % 2) + 512 * (mode / 0x10_0000 % 2)
  }

  // The mode a file gets from a recorded mode.
  function Chmod(mode: nat): (m: nat)
    ensures Perm(m) == Perm(mode)
    ensures mode < 512 ==> m == mode
  {
    Perm(mode) + Flags(mode)
  }

  // The directories above a path, from the top.
  function Parents(path: string): seq<string> {
    ParentsUpTo(path, |path|)
  }

  function ParentsUpTo(path: string, n: nat): seq<string>
    requires n <= |path|
  {
    if n < 2 then []
    else ParentsUpTo(path, n - 1) + (if path[n - 1] == '/' then [path[..n - 1]] else [])
  }

  function Tops(path: string, n: nat): set<string> {
    set i | 0 <= i < n && i < |Parents(path)| :: Parents(path)[i]
  }

  function Above(path: string): set<string> {
    Tops(path, |Parents(path)|)
  }

  lemma TopsAreAbove(path: string, n: nat)
    ensures Tops(path, n) <= Above(path)
    ensures n >= |Parents(path)| ==> Tops(path, n) == Above(path)
  {
    hide Parents;
  }

  // A temporary file: its name and what it holds.
  datatype Stray = Stray(name: string, node: Node)

  // What the world says to one operation: whether it succeeds, what the kernel
  // stored if it is a sysctl assignment, a text (the congestion controls known after
  // loading the module, or the message of a failed command), the clock, the sysctls that
  // could not be inspected, the temporary file a failed write left behind, if any, and how
  // many of the directories above its path a failed write came to have, from the top.
  datatype Answer = Answer(
    ok: bool, effect: Values, text: string, stamp: Stamp, hidden: set<string>, left: Option<Stray>, levels: nat)

  const SOME_TIME: Stamp := RawStamp(2026, 1, 1, 0, 0, 0, 0)

  // What reading through a path delivers, and whether it finds nothing there.
  function ReadThrough(node: Node): Option<string> {
    match node
    case Regular(_, data) => Some(data)
    case Other(readable) => readable
    case Dangling => None
  }

  predicate NotFound(files: map<string, Node>, path: string) {
    path !in files || files[path].Dangling?
  }

  lemma SameAtEveryPath(a: map<string, Node>, b: map<string, Node>)
    requires forall path :: SameAt(a, b, path)
    ensures b == a
  {
    forall path ensures path in b <==> path in a { assert SameAt(a, b, path); }
    assert b.Keys == a.Keys;
    forall path | path in a ensures b[path] == a[path] { assert SameAt(a, b, path); }
  }

  // The same node, or nothing, at the path.
  predicate SameAt(a: map<string, Node>, b: map<string, Node>, path: string) {
    (path in b <==> path in a) && (path in a ==> b[path] == a[path])
  }

  // Nothing the outside world is asked to do fails.
  ghost predicate AllOk(world: nat -> Answer) {
    forall t: nat :: world(t).ok
  }

  // No failed write leaves its temporary file behind.
  ghost predicate Tidy(world: nat -> Answer) {
    forall t: nat :: world(t).left.None?
  }

  // Every sysctl can be inspected at all times.
  ghost predicate FullyReadable(world: nat -> Answer) {
    forall t: nat :: world(t).hidden == {}
  }

  // ---------- effects of single operations ----------

  function ReadSysctl(h: State, key: string, a: Answer): Option<string> {
    if a.ok && key in h.sysctls then Some(h.sysctls[key]) else None
  }

  // `sysctl -w key=value`: the kernel may store anything under the key, or nothing,
  // whether or not the command reports success.
  function AssignSysctl(h: State, key: string, a: Answer): State {
    if key in a.effect then h.(sysctls := h.sysctls[key := a.effect[key]]) else h
  }

  // The command reported success and the kernel stored what was asked.
  predicate Honest(key: string, value: string, a: Answer) {
    a.ok && key in a.effect && Normalize(a.effect[key]) == Normalize(value)
  }

  // `sysctl -p path`: any of the keys the file assigns may take any value.
  function LoadConfig(h: State, path: string, a: Answer): State {
    if path in h.files && ReadThrough(h.files[path]).Some? then
      var keys := AssignedKeys(ReadThrough(h.files[path]).value);
      h.(sysctls := h.sysctls + map key | key in a.effect && key in keys :: a.effect[key])
    else h
  }

  // A failed atomic write may leave its temporary file, whose name was new.
  predicate LeavesOne(strays: map<string, Node>, a: Answer) {
    !a.ok && a.left.Some? && a.left.value.name !in strays
  }

  function Leave(strays: map<string, Node>, a: Answer): map<string, Node> {
    if LeavesOne(strays, a) then strays[a.left.value.name := a.left.value.node] else strays
  }

  // Strays are never overwritten or removed by the tool.
  predicate Kept(a: map<string, Node>, b: map<string, Node>) {
    forall name | name in a :: name in b && b[name] == a[name]
  }

  // Only failed writes that leave their temporary file behind add strays.
  ghost predicate StraysFollow(a: map<string, Node>, b: map<string, Node>, world: nat -> Answer) {
    Kept(a, b) && (Tidy(world) ==> b == a)
  }

  lemma FollowsItself(strays: map<string, Node>, world: nat -> Answer)
    ensures StraysFollow(strays, strays, world)
  {
  }

  lemma FollowOn(a: map<string, Node>, b: map<string, Node>, c: map<string, Node>, world: nat -> Answer)
    requires StraysFollow(a, b, world) && StraysFollow(b, c, world)
    ensures StraysFollow(a, c, world)
  {
  }

  lemma LeaveKeeps(a: map<string, Node>, b: map<string, Node>, answer: Answer)
    requires Kept(a, b)
    ensures Kept(a, Leave(b, answer))
  {
  }

  lemma LeaveFollows(a: map<string, Node>, b: map<string, Node>, world: nat -> Answer, t: nat)
    requires StraysFollow(a, b, world)
    ensures StraysFollow(a, Leave(b, world(t)), world)
  {
  }

  // The directories above its path that a write finds or makes, down to where it fails.
  function Reach(path: string, a: Answer): set<string> {
    if a.ok then Above(path) else Tops(path, a.levels)
  }

  lemma ReachIsAbove(path: string, a: Answer)
    ensures Reach(path, a) <= Above(path)
  {
    hide Parents;
  }

  // A completed atomic write or removal; a failed one leaves the path as it was.  A write
  // makes the directories it needs, and nothing removes them.
  function PutFile(h: State, path: string, data: string, mode: nat, a: Answer): State {
    h.(files := if a.ok then h.files[path := Regular(mode, data)] else h.files,
       dirs := h.dirs + Reach(path, a), strays := Leave(h.strays, a))
  }

  // A new file that is removed again leaves the directory that was made for it.
  lemma NewDirectoryStays(h: State, path: string, data: string, write: Answer, remove: Answer, dir: string)
    requires path !in h.files && write.ok && remove.ok && dir in Above(path) && dir !in h.dirs
    ensures var end := DropFile(PutFile(h, path, data, 420, write), path, remove);
            end.files == h.files && dir in end.dirs
  {
    hide Above, Leave;
  }

  function DropFile(h: State, path: string, a: Answer): State {
    if a.ok then h.(files := h.files - {path}) else h
  }

  function RestoreOwned(h: State, file: FileSnapshot, a: Answer): State {
    if file.present then PutFile(h, file.path, file.data, Chmod(file.mode), a) else DropFile(h, file.path, a)
  }

  function CaptureOne(h: State, path: string, a: Answer): Option<FileSnapshot> {
    if !a.ok then None
    else if path !in h.files then Some(FileSnapshot(path, false, 0, ""))
    else
      match h.files[path]
      case Regular(mode, data) => Some(FileSnapshot(path, true, Perm(mode), data))
      case _ => None
  }

  function SaveSnapshot(h: State, snap: Snapshot, a: Answer): State {
    h.(store := if a.ok then h.store[snap.id := snap] else h.store, strays := Leave(h.strays, a))
  }

  function SaveLatest(h: State, id: string, a: Answer): State {
    h.(latest := if a.ok then Some(id + "\n") else h.latest, strays := Leave(h.strays, a))
  }

  // ---------- verification of values ----------

  datatype Check = Check(name: string, expected: string, actual: string, ok: bool)

  datatype Verification = Verification(ok: bool, checks: seq<Check>, warnings: seq<string>)

  const UNVERIFIED := Verification(false, [], [])

  function CheckOf(actual: Values, expected: Values, key: string): Check
    requires key in expected
  {
    var e, a := Normalize(expected[key]), Normalize(Lookup(actual, key));
    Check(key, e, a, e == a)
  }

  function ChecksOf(actual: Values, expected: Values, keys: seq<string>): seq<Check>
    requires forall i | 0 <= i < |keys| :: keys[i] in expected
  {
    if keys == [] then []
    else ChecksOf(actual, expected, keys[..|keys| - 1]) + [CheckOf(actual, expected, keys[|keys| - 1])]
  }

  predicate KeyMeets(actual: Values, expected: Values, key: string)
    requires key in expected
  {
    Normalize(Lookup(actual, key)) == Normalize(expected[key])
  }

  // Every expected key has its expected value, up to white space.
  predicate Meets(actual: Values, expected: Values) {
    forall key | key in expected :: KeyMeets(actual, expected, key)
  }

  ghost function Compared(actual: Values, expected: Values): Verification {
    Verification(Meets(actual, expected), ChecksOf(actual, expected, SortedKeys(expected.Keys)), [])
  }

  lemma CheckIsMeeting(actual: Values, expected: Values, key: string)
    requires key in expected
    ensures CheckOf(actual, expected, key).ok <==> KeyMeets(actual, expected, key)
  {
    hide Normalize, Lookup;
  }

  lemma ChecksNext(actual: Values, expected: Values, keys: seq<string>, i: nat)
    requires i < |keys| && forall j | 0 <= j < |keys| :: keys[j] in expected
    ensures ChecksOf(actual, expected, keys[..i + 1]) == ChecksOf(actual, expected, keys[..i]) + [CheckOf(actual, expected, keys[i])]
  {
    hide CheckOf;
    assert keys[..i + 1][..i] == keys[..i];
  }

  // One check per key, in order: what was expected, what was found, and whether they are
  // the same up to white space.
  lemma {:induction false} ChecksAre(actual: Values, expected: Values, keys: seq<string>)
    requires forall i | 0 <= i < |keys| :: keys[i] in expected
    ensures |ChecksOf(actual, expected, keys)| == |keys|
    ensures forall i | 0 <= i < |keys| ::
              var check := ChecksOf(actual, expected, keys)[i];
              && check.name == keys[i]
              && check.expected == Normalize(expected[keys[i]])
              && check.actual == Normalize(if keys[i] in actual then actual[keys[i]] else "")
              && (check.ok <==> check.actual == check.expected)
  {
    hide Normalize;
    if keys != [] { ChecksAre(actual, expected, keys[..|keys| - 1]); }
  }

  method VerifyMaps(actual: Values, expected: Values) returns (v: Verification)
    ensures v == Compared(actual, expected)
  {
    hide SortedKeys, CheckOf, KeyMeets, ChecksOf;
    var keys := CollectSortedKeys(expected);
    var ok, checks := true, [];
    assert checks == ChecksOf(actual, expected, keys[..0]) by { NoChecks(actual, expected, keys[..0]); }
    for i := 0 to |keys|
      invariant forall j | 0 <= j < |keys| :: keys[j] in expected
      invariant checks == ChecksOf(actual, expected, keys[..i])
      invariant ok <==> forall j | 0 <= j < i :: KeyMeets(actual, expected, keys[j])
    {
      var check := CheckOf(actual, expected, keys[i]);
      CheckIsMeeting(actual, expected, keys[i]);
      ChecksNext(actual, expected, keys, i);
      if !check.ok { ok := false; }
      checks := checks + [check];
    }
    assert keys[..|keys|] == keys;
    v := Verification(ok, checks, []);
    assert forall key | key in expected :: key in keys;
  }

  // OK exactly if every expected key has its value; the entries, sorted by key, say so.
  lemma ComparedIs(actual: Values, expected: Values)
    ensures Compared(actual, expected).ok <==> forall key | key in expected ::
              Normalize(if key in actual then actual[key] else "") == Normalize(expected[key])
    ensures var checks := Compared(actual, expected).checks;
            |checks| == |expected| && forall i | 0 <= i < |checks| ::
              var key := SortedKeys(expected.Keys)[i];
              && key in expected && checks[i].name == key && checks[i].expected == Normalize(expected[key])
              && checks[i].actual == Normalize(if key in actual then actual[key] else "")
              && (checks[i].ok <==> checks[i].actual == checks[i].expected)
  {
    hide Normalize, SortedKeys, ChecksOf;
    ChecksAre(actual, expected, SortedKeys(expected.Keys));
    assert forall key | key in expected :: KeyMeets(actual, expected, key) <==>
             Normalize(if key in actual then actual[key] else "") == Normalize(expected[key]);
  }

  lemma NoChecks(actual: Values, expected: Values, keys: seq<string>)
    requires keys == []
    ensures ChecksOf(actual, expected, keys) == []
  {
  }

  // ---------- snapshots ----------

  // validateSnapshot: the allowlisted sysctls and exactly the two owned files.
  predicate SnapshotTest(cfg: Paths, snap: Snapshot) {
    && AllowlistTest(snap.sysctls)
    && |snap.files| == 2
    && forall path | path in snap.files ::
         (path == cfg.sysctlFile || path == cfg.modulesFile) && snap.files[path].path == path
  }

  lemma SnapshotTestIff(cfg: Paths, snap: Snapshot)
    ensures SnapshotTest(cfg, snap) <==>
            && Distinct(cfg)
            && snap.sysctls.Keys == MANAGED_SYSCTLS
            && snap.files.Keys == {cfg.sysctlFile, cfg.modulesFile}
            && forall path | path in snap.files :: snap.files[path].path == path
  {
    AllowlistTestIff(snap.sysctls);
    assert |snap.files| == |snap.files.Keys|;
    if SnapshotTest(cfg, snap) {
      assert snap.files.Keys <= {cfg.sysctlFile, cfg.modulesFile};
      if !Distinct(cfg) {
        assert snap.files.Keys <= {cfg.sysctlFile};
        CardinalityMonotone(snap.files.Keys, {cfg.sysctlFile});
      }
      SubsetOfEqualSize(snap.files.Keys, {cfg.sysctlFile, cfg.modulesFile});
    }
  }

  lemma {:induction false} CardinalityMonotone(a: set<string>, b: set<string>)
    requires a <= b
    ensures |a| <= |b|
  {
    if a != {} {
      var x :| x in a;
      CardinalityMonotone(a - {x}, b - {x});
    }
  }

  // The record was taken of this file: its bytes and its permission bits.
  predicate FileTaken(files: map<string, Node>, path: string, file: FileSnapshot) {
    if file.present then
      path in files && files[path].Regular? && files[path].data == file.data && file.mode == Perm(files[path].mode)
    else path !in files
  }

  // The file is what restoring the record makes of it.
  predicate FileIs(files: map<string, Node>, path: string, file: FileSnapshot) {
    if file.present then path in files && files[path] == Regular(Chmod(file.mode), file.data) else path !in files
  }

  // Restoring one file makes it what the record says, unless it fails, and no other file differs.
  lemma FileOperationIsLocal(h: State, file: FileSnapshot, a: Answer)
    ensures a.ok ==> FileIs(RestoreOwned(h, file, a).files, file.path, file)
    ensures forall path, other: FileSnapshot ::
              path != file.path && FileIs(h.files, path, other) ==> FileIs(RestoreOwned(h, file, a).files, path, other)
    ensures !a.ok ==> RestoreOwned(h, file, a).files == h.files
  {
    hide Chmod, Leave;
  }

  predicate KeyAgrees(sysctls: Values, key: string, value: string) {
    key in sysctls && Normalize(sysctls[key]) == Normalize(value)
  }

  ghost predicate FilesTaken(files: map<string, Node>, snap: Snapshot) {
    forall path | path in snap.files :: FileTaken(files, path, snap.files[path])
  }

  ghost predicate FilesAre(files: map<string, Node>, snap: Snapshot) {
    forall path | path in snap.files :: FileIs(files, path, snap.files[path])
  }

  ghost predicate KeysAgree(sysctls: Values, snap: Snapshot) {
    forall key | key in snap.sysctls :: KeyAgrees(sysctls, key, snap.sysctls[key])
  }

  // The snapshot was taken of this host.
  ghost predicate TakenOf(h: State, snap: Snapshot) {
    FilesTaken(h.files, snap) && KeysAgree(h.sysctls, snap)
  }

  // The host is in the state a snapshot describes.
  ghost predicate Agrees(h: State, snap: Snapshot) {
    FilesAre(h.files, snap) && KeysAgree(h.sysctls, snap)
  }

  // ---------- comparing two hosts on what the tool manages ----------

  predicate NodeAlike(a: map<string, Node>, b: map<string, Node>, path: string) {
    if path in a then
      path in b && (a[path] == b[path] ||
        (a[path].Regular? && b[path].Regular? && a[path].data == b[path].data && Perm(a[path].mode) == Perm(b[path].mode)))
    else path !in b
  }

  predicate KeyAlike(a: Values, b: Values, key: string) {
    if key in a then key in b && Normalize(a[key]) == Normalize(b[key]) else key !in b
  }

  // The same managed sysctls up to white space, and the same two files up to
  // permission bits.
  ghost predicate SameManaged(cfg: Paths, a: State, b: State) {
    && (forall key | key in MANAGED_SYSCTLS :: KeyAlike(a.sysctls, b.sysctls, key))
    && NodeAlike(a.files, b.files, cfg.sysctlFile)
    && NodeAlike(a.files, b.files, cfg.modulesFile)
  }

  // The two files are the very same nodes.
  predicate SameNodes(cfg: Paths, a: State, b: State) {
    SameAt(a.files, b.files, cfg.sysctlFile) && SameAt(a.files, b.files, cfg.modulesFile)
  }

  // No mode bit above the permissions, which are all a snapshot keeps.
  predicate PlainAt(files: map<string, Node>, path: string) {
    path in files && files[path].Regular? ==> files[path].mode < 512
  }

  predicate PlainModes(cfg: Paths, h: State) {
    PlainAt(h.files, cfg.sysctlFile) && PlainAt(h.files, cfg.modulesFile)
  }

  // A captured and restored file is like the old one, and the very same node exactly
  // when its mode was plain.
  lemma RestoredFileIff(a: map<string, Node>, b: map<string, Node>, path: string, file: FileSnapshot)
    requires FileTaken(a, path, file) && FileIs(b, path, file)
    ensures NodeAlike(a, b, path)
    ensures SameAt(a, b, path) <==> PlainAt(a, path)
  {
    hide Chmod;
    if file.present {
      assert Chmod(file.mode) == file.mode == Perm(a[path].mode);
      assert Perm(a[path].mode) == a[path].mode <==> a[path].mode < 512;
    }
  }

  // A set-user-id file comes back without that bit.
  lemma SetUserIdIsLost(h: State, path: string, data: string, a: Answer, b: Answer)
    requires a.ok && b.ok && path in h.files && h.files[path] == Regular(0x9A4, data)
    ensures CaptureOne(h, path, a).Some?
    ensures RestoreOwned(h, CaptureOne(h, path, a).value, b).files[path] == Regular(0x1A4, data)
  {
    assert Perm(0x9A4) == 0x1A4;
  }

  // A host restored from a snapshot has the managed sysctls and the two files of the host
  // the snapshot was taken of; the two nodes are identical exactly when their modes were plain.
  lemma AgreementIsState(cfg: Paths, a: State, b: State, snap: Snapshot)
    requires SnapshotTest(cfg, snap) && TakenOf(a, snap) && Agrees(b, snap)
    ensures SameManaged(cfg, a, b)
    ensures SameNodes(cfg, a, b) <==> PlainModes(cfg, a)
  {
    hide Normalize, NodeAlike, SameAt, PlainAt;
    SnapshotTestIff(cfg, snap);
    forall key | key in MANAGED_SYSCTLS ensures KeyAlike(a.sysctls, b.sysctls, key) {
      assert KeyAgrees(a.sysctls, key, snap.sysctls[key]) && KeyAgrees(b.sysctls, key, snap.sysctls[key]);
    }
    RestoredFileIff(a.files, b.files, cfg.sysctlFile, snap.files[cfg.sysctlFile]);
    RestoredFileIff(a.files, b.files, cfg.modulesFile, snap.files[cfg.modulesFile]);
  }

  // Undone by a restore from a snapshot, or with nothing to undo where no snapshot was taken.
  ghost predicate PutBack(cfg: Paths, b: State, h: State, snapshotId: string) {
    && SameManaged(cfg, b, h)
    && (SameNodes(cfg, b, h) <==> PlainModes(cfg, b) || snapshotId == "")
  }
}
