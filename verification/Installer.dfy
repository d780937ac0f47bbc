/**
 The second transaction: four owned files and systemd, written in an arbitrary order,
 restored on any failure, and removed only when they are the tool's own.
 */
module Installer {
  import opened Wrappers
  import opened Text
  import opened Recommend
  import opened HostState
  import opened Engine
  import opened Directories
  import opened Units
  import opened Manage
  import AtomicFile

  datatype ManagedProfile = ManagedProfile(version: int, managedBy: string, input: Input)

  const PROFILE_VERSION := 1
  const MANAGED_BY := "sshappy-tune"

  // The JSON codec of the standard library: what it writes it reads back.
  datatype Codec = Codec(encode: ManagedProfile -> string, decode: string -> Option<ManagedProfile>) {
    ghost predicate RoundTrips() {
      forall p: ManagedProfile :: decode(encode(p)) == Some(p)
    }
  }

  predicate Absolute(path: string) {
    path != "" && path[0] == '/'
  }

  datatype AutomationPaths = AutomationPaths(
    binary: string, profile: string, applyUnit: string, verifyUnit: string, timer: string, lockFile: string)
  {
    function Owned(): seq<string> { [profile, applyUnit, verifyUnit, timer] }

    function OwnedSet(): set<string> { {profile, applyUnit, verifyUnit, timer} }

    // All absolute, and no white space in the path of the binary.
    predicate Sound() {
      && Absolute(binary) && Absolute(profile) && Absolute(applyUnit) && Absolute(verifyUnit) && Absolute(timer)
      && Absolute(lockFile)
      && ' ' !in binary && '\t' !in binary && '\r' !in binary && '\n' !in binary
    }

    // Four different files.
    predicate Apart() {
      && profile != applyUnit && profile != verifyUnit && profile != timer
      && applyUnit != verifyUnit && applyUnit != timer && verifyUnit != timer
    }
  }

  // ---------- ownership ----------

  // A profile is the tool's when it decodes and names the tool; a unit when it carries the marker.
  predicate OwnsText(codec: Codec, profile: bool, data: string) {
    if profile then codec.decode(data).Some? && codec.decode(data).value.managedBy == MANAGED_BY
    else Contains(data, MARKER)
  }

  // Reading finds something there that is not the tool's own.
  predicate Foreign(codec: Codec, paths: AutomationPaths, files: map<string, Node>, path: string) {
    && !NotFound(files, path)
    && (ReadThrough(files[path]).None? || !OwnsText(codec, path == paths.profile, ReadThrough(files[path]).value))
  }

  // Nothing is there, or a regular file of the tool's.
  predicate Replaceable(codec: Codec, paths: AutomationPaths, files: map<string, Node>, path: string) {
    path in files ==> files[path].Regular? && !Foreign(codec, paths, files, path)
  }

  predicate AllReplaceable(codec: Codec, paths: AutomationPaths, files: map<string, Node>) {
    forall i | 0 <= i < 4 :: Replaceable(codec, paths, files, paths.Owned()[i])
  }

  predicate NoneForeign(codec: Codec, paths: AutomationPaths, files: map<string, Node>) {
    forall i | 0 <= i < 4 :: !Foreign(codec, paths, files, paths.Owned()[i])
  }

  lemma MarkedTextIsOwned(codec: Codec, data: string)
    requires MARKER <= data
    ensures OwnsText(codec, false, data)
  {
    hide MARKER;
    assert data[0..0 + |MARKER|] == MARKER;
    assert OccursAt(data, MARKER, 0);
  }

  // A unit is the tool's exactly if the marker occurs somewhere in it, a profile exactly if
  // it decodes and names the tool.
  lemma OwnedTextIff(codec: Codec, data: string)
    ensures OwnsText(codec, false, data) <==> exists a, b :: data == a + "# Managed by sshappy-tune" + b
    ensures OwnsText(codec, true, data) <==>
            codec.decode(data).Some? && codec.decode(data).value.managedBy == "sshappy-tune"
  {
    MarkerIs();
    hide MARKER;
    if OwnsText(codec, false, data) {
      var i: nat :| 0 <= i <= |data| - |MARKER| && OccursAt(data, MARKER, i);
      var a, b := data[..i], data[i + |MARKER|..];
      assert data == a + "# Managed by sshappy-tune" + b;
    }
    if a, b :| data == a + "# Managed by sshappy-tune" + b {
      assert data[|a|..|a| + |MARKER|] == MARKER;
      assert OccursAt(data, MARKER, |a|);
    }
  }

  lemma MarkerIs()
    ensures MARKER == "# Managed by sshappy-tune" && |MARKER| == 25
  {
  }

  // Install may replace nothing but its own regular files.
  lemma ReplaceableIff(codec: Codec, paths: AutomationPaths, files: map<string, Node>, path: string)
    ensures Replaceable(codec, paths, files, path) <==>
            path in files ==> files[path].Regular? && OwnsText(codec, path == paths.profile, files[path].data)
  {
    hide OwnsText;
  }

  lemma UnitsAreOwned(codec: Codec, binary: string)
    ensures OwnsText(codec, false, ApplyUnit(binary))
    ensures OwnsText(codec, false, VerifyUnit(binary))
    ensures OwnsText(codec, false, VerifyTimer())
  {
    hide OwnsText, MARKER, ApplyUnit, VerifyUnit, VerifyTimer;
    MarkerLeads(binary);
    MarkedTextIsOwned(codec, ApplyUnit(binary));
    MarkedTextIsOwned(codec, VerifyUnit(binary));
    MarkedTextIsOwned(codec, VerifyTimer());
  }

  // ---------- what Install writes ----------

  function Contents(codec: Codec, paths: AutomationPaths, profile: ManagedProfile): map<string, string> {
    map[
      paths.profile := codec.encode(profile),
      paths.applyUnit := ApplyUnit(paths.binary),
      paths.verifyUnit := VerifyUnit(paths.binary),
      paths.timer := VerifyTimer()
    ]
  }

  lemma ContentsKeys(codec: Codec, paths: AutomationPaths, profile: ManagedProfile)
    ensures Contents(codec, paths, profile).Keys == paths.OwnedSet()
  {
    hide ApplyUnit, VerifyUnit, VerifyTimer;
  }

  predicate Writes(files: map<string, Node>, contents: map<string, string>) {
    forall path | path in contents :: path in files && files[path] == Regular(420, contents[path])
  }

  // A regular file with mode 0644, and its text.
  predicate Published(files: map<string, Node>, path: string) {
    path in files && files[path].Regular? && files[path].mode == 0x1A4
  }

  // What the four files say: at boot the tool reconciles, every six hours it verifies, both by
  // way of the installed binary and with the profile that was given.
  ghost predicate Automated(codec: Codec, paths: AutomationPaths, files: map<string, Node>, profile: ManagedProfile) {
    && Published(files, paths.profile) && Published(files, paths.applyUnit)
    && Published(files, paths.verifyUnit) && Published(files, paths.timer)
    && codec.decode(files[paths.profile].data) == Some(profile)
    && SettingsOf(files[paths.applyUnit].data, "ExecStart") == [paths.binary + " reconcile --confirm"]
    && SettingsOf(files[paths.applyUnit].data, "WantedBy") == ["multi-user.target"]
    && SettingsOf(files[paths.verifyUnit].data, "ExecStart") == [paths.binary + " verify"]
    && SettingsOf(files[paths.verifyUnit].data, "WantedBy") == []
    && SettingsOf(files[paths.timer].data, "Unit") == ["sshappy-tune-verify.service"]
    && SettingsOf(files[paths.timer].data, "OnUnitActiveSec") == ["6h"]
    && SettingsOf(files[paths.timer].data, "WantedBy") == ["timers.target"]
  }

  lemma WrittenIsAutomated(codec: Codec, paths: AutomationPaths, profile: ManagedProfile, files: map<string, Node>)
    requires codec.RoundTrips() && paths.Apart() && paths.Sound()
    requires Writes(files, Contents(codec, paths, profile))
    ensures Automated(codec, paths, files, profile)
  {
    hide ApplyUnit, VerifyUnit, VerifyTimer, SettingsOf;
    var contents := Contents(codec, paths, profile);
    assert contents[paths.profile] == codec.encode(profile);
    assert contents[paths.applyUnit] == ApplyUnit(paths.binary);
    assert contents[paths.verifyUnit] == VerifyUnit(paths.binary);
    assert contents[paths.timer] == VerifyTimer();
    assert codec.decode(codec.encode(profile)) == Some(profile);
    ApplyUnitReconciles(paths.binary);
    VerifyUnitVerifies(paths.binary);
    TimerStartsVerification();
  }

  // Whatever Install leaves behind passes the ownership test: it can always be
  // replaced by a later Install and removed by Uninstall.
  lemma InstalledIsOwned(codec: Codec, paths: AutomationPaths, profile: ManagedProfile, files: map<string, Node>)
    requires codec.RoundTrips() && paths.Apart() && profile.managedBy == MANAGED_BY
    requires Writes(files, Contents(codec, paths, profile))
    ensures AllReplaceable(codec, paths, files) && NoneForeign(codec, paths, files)
  {
    hide ApplyUnit, VerifyUnit, VerifyTimer, OwnsText;
    var contents := Contents(codec, paths, profile);
    UnitsAreOwned(codec, paths.binary);
    EncodedIsOwned(codec, profile);
    assert contents[paths.profile] == codec.encode(profile);
    assert contents[paths.applyUnit] == ApplyUnit(paths.binary);
    assert contents[paths.verifyUnit] == VerifyUnit(paths.binary);
    assert contents[paths.timer] == VerifyTimer();
  }

  // Install, then Uninstall: no file is refused on ownership.
  lemma InstalledIsNeverRefused(codec: Codec, paths: AutomationPaths, profile: ManagedProfile, files: map<string, Node>,
                                errs: seq<Failure>)
    requires codec.RoundTrips() && paths.Apart() && profile.managedBy == MANAGED_BY
    requires Writes(files, Contents(codec, paths, profile)) && OnlyForeignRefused(codec, paths, files, errs)
    ensures forall f | f in errs :: !f.NotOwned?
  {
    hide Contents, Writes, Foreign;
    InstalledIsOwned(codec, paths, profile, files);
    NoneForeignAmongOwned(codec, paths, files);
  }

  lemma NoneForeignAmongOwned(codec: Codec, paths: AutomationPaths, files: map<string, Node>)
    requires NoneForeign(codec, paths, files)
    ensures forall path | path in paths.OwnedSet() :: !Foreign(codec, paths, files, path)
  {
    hide Foreign;
    forall path | path in paths.OwnedSet() ensures !Foreign(codec, paths, files, path) {
      assert path == paths.Owned()[0] || path == paths.Owned()[1] || path == paths.Owned()[2] || path == paths.Owned()[3];
    }
  }

  lemma EncodedIsOwned(codec: Codec, profile: ManagedProfile)
    requires codec.RoundTrips() && profile.managedBy == MANAGED_BY
    ensures OwnsText(codec, true, codec.encode(profile))
  {
    assert codec.decode(codec.encode(profile)) == Some(profile);
  }

  // ---------- reports and comparison ----------

  // The error, the errors of restoring, and whether a restore ran.
  datatype InstallReport = InstallReport(failure: Option<Failure>, restoreFailures: seq<Failure>, undone: bool)

  // The four files are as before: existence, bytes, permission bits.
  predicate SameOwned(paths: AutomationPaths, a: map<string, Node>, b: map<string, Node>) {
    forall i | 0 <= i < 4 :: NodeAlike(a, b, paths.Owned()[i])
  }

  predicate OthersUntouched(paths: AutomationPaths, a: map<string, Node>, b: map<string, Node>) {
    b - paths.OwnedSet() == a - paths.OwnedSet()
  }

  // Restored: as before, and the very same node exactly if its mode was plain.
  predicate BackAt(a: map<string, Node>, b: map<string, Node>, path: string) {
    NodeAlike(a, b, path) && (SameAt(a, b, path) <==> PlainAt(a, path))
  }

  // Each of the four is restored, or its restoring is reported to have failed.
  predicate BackOrReported(paths: AutomationPaths, a: map<string, Node>, b: map<string, Node>, errs: seq<Failure>) {
    forall i | 0 <= i < 4 :: BackAt(a, b, paths.Owned()[i]) || RestoreFailed(paths.Owned()[i]) in errs
  }

  predicate PlainOwned(paths: AutomationPaths, files: map<string, Node>) {
    forall i | 0 <= i < 4 :: PlainAt(files, paths.Owned()[i])
  }

  // An error-free restore brings the four files back, and the whole file system exactly
  // if none of their modes had a bit above the permissions.
  lemma AllBackIff(paths: AutomationPaths, a: map<string, Node>, b: map<string, Node>)
    requires BackOrReported(paths, a, b, []) && OthersUntouched(paths, a, b)
    ensures SameOwned(paths, a, b)
    ensures b == a <==> PlainOwned(paths, a)
  {
    hide NodeAlike, PlainAt;
    assert forall i | 0 <= i < 4 :: BackAt(a, b, paths.Owned()[i]);
    if PlainOwned(paths, a) {
      SameEverywhere(paths, a, b);
    }
  }

  // ---------- directories ----------

  function AboveOwned(paths: AutomationPaths): set<string> {
    Above(paths.profile) + Above(paths.applyUnit) + Above(paths.verifyUnit) + Above(paths.timer)
  }

  lemma OwnedReach(paths: AutomationPaths, path: string, a: Answer)
    requires path in paths.OwnedSet()
    ensures Reach(path, a) <= Above(path) <= AboveOwned(paths)
  {
    hide Above, Reach;
    ReachIsAbove(path, a);
  }

  // Whatever is there has the directories above it.
  predicate Rooted(paths: AutomationPaths, files: map<string, Node>, dirs: set<string>) {
    forall i | 0 <= i < 4 :: paths.Owned()[i] in files ==> Above(paths.Owned()[i]) <= dirs
  }

  // The directories that writes of these files, answered from t on, came to.
  ghost function Came(tried: seq<string>, world: nat -> Answer, t: nat): set<string> {
    if tried == [] then {}
    else Came(tried[..|tried| - 1], world, t) + Reach(tried[|tried| - 1], world(t + |tried| - 1))
  }

  lemma CameNext(tried: seq<string>, path: string, world: nat -> Answer, t: nat)
    ensures Came(tried + [path], world, t) == Came(tried, world, t) + Reach(path, world(t + |tried|))
  {
    hide Reach;
    assert (tried + [path])[..|tried|] == tried;
  }

  // The file system as it was, but for the lock file and the directories above it.
  ghost predicate SameTree(paths: AutomationPaths, a: map<string, Node>, adirs: set<string>, b: map<string, Node>, bdirs: set<string>) {
    && (forall path | path != paths.lockFile :: SameAt(a, b, path))
    && (forall dir | dir !in Above(paths.lockFile) :: dir in bdirs <==> dir in adirs)
  }

  // An error-free restore brings the whole tree back exactly if the modes were plain and
  // the directories the writes came to had been there.
  lemma TreeBackIff(paths: AutomationPaths, a: map<string, Node>, adirs: set<string>, b: map<string, Node>, bdirs: set<string>,
                    came: set<string>)
    requires BackOrReported(paths, a, b, []) && OthersUntouched(paths, a, b) && bdirs == adirs + came
    requires paths.lockFile !in paths.OwnedSet()
    ensures SameTree(paths, a, adirs, b, bdirs) <==> PlainOwned(paths, a) && came <= adirs + Above(paths.lockFile)
  {
    hide Above, NodeAlike, PlainAt, BackOrReported;
    AllBackIff(paths, a, b);
    if SameTree(paths, a, adirs, b, bdirs) {
      OthersAreSame(paths, a, b);
      SameEverywhere(paths, a, b);
    }
  }

  // The first installation on a host without the profile's directory leaves that directory
  // there, even if it fails at the units and undoes everything without an error.
  lemma FirstInstallLeavesItsDirectory(paths: AutomationPaths, name: string, dir: string, a: map<string, Node>,
                                       adirs: set<string>, b: map<string, Node>, bdirs: set<string>)
    requires paths.profile == dir + "/" + name && dir != ""
    requires dir !in adirs && dir !in Above(paths.lockFile) && AboveOwned(paths) <= bdirs
    ensures dir in bdirs && !SameTree(paths, a, adirs, b, bdirs)
  {
    hide Above;
    DirectoryIsAbove(dir, name);
  }

  // ---------- between two operations ----------

  // A file is as before, restored, or completely written.
  predicate InBetween(before: map<string, Node>, contents: map<string, string>, files: map<string, Node>, path: string) {
    || SameAt(before, files, path) || BackAt(before, files, path)
    || (path in contents && path in files && files[path] == Regular(420, contents[path]))
  }

  predicate Intermediate(paths: AutomationPaths, before: map<string, Node>, contents: map<string, string>, files: map<string, Node>) {
    OthersUntouched(paths, before, files) && forall i | 0 <= i < 4 :: InBetween(before, contents, files, paths.Owned()[i])
  }

  lemma BeforeIsIntermediate(paths: AutomationPaths, before: map<string, Node>, contents: map<string, string>)
    ensures Intermediate(paths, before, contents, before)
  {
    hide BackAt;
    forall i | 0 <= i < 4 ensures InBetween(before, contents, before, paths.Owned()[i]) {
      assert SameAt(before, before, paths.Owned()[i]);
    }
  }

  lemma ChangedIsIntermediate(paths: AutomationPaths, before: map<string, Node>, contents: map<string, string>,
                              a: map<string, Node>, b: map<string, Node>, path: string)
    requires Intermediate(paths, before, contents, a) && path in paths.OwnedSet() && b - {path} == a - {path}
    requires InBetween(before, contents, b, path)
    ensures Intermediate(paths, before, contents, b)
  {
    hide BackAt, OthersUntouched, PlainAt;
    OneOwnedChanges(paths, before, a, b, path);
    forall i | 0 <= i < 4 ensures InBetween(before, contents, b, paths.Owned()[i]) {
      var other := paths.Owned()[i];
      if other != path {
        assert InBetween(before, contents, a, other);
        assert other in a <==> other in a - {path};
        assert other in b <==> other in b - {path};
        if other in a { assert b[other] == (b - {path})[other] == (a - {path})[other] == a[other]; }
        BackStays(before, a, b, other);
      }
    }
  }

  lemma BackStays(before: map<string, Node>, a: map<string, Node>, b: map<string, Node>, path: string)
    requires SameAt(a, b, path)
    ensures BackAt(before, a, path) ==> BackAt(before, b, path)
    ensures SameAt(before, a, path) ==> SameAt(before, b, path)
  {
  }

  // Wherever between its operations Install stops, no file stands in the way of another
  // Install or of an Uninstall.
  lemma IntermediateIsReplaceable(codec: Codec, paths: AutomationPaths, profile: ManagedProfile, before: map<string, Node>,
                                  files: map<string, Node>)
    requires codec.RoundTrips() && paths.Apart() && profile.managedBy == MANAGED_BY
    requires AllReplaceable(codec, paths, before)
    requires Intermediate(paths, before, Contents(codec, paths, profile), files)
    ensures AllReplaceable(codec, paths, files) && NoneForeign(codec, paths, files)
  {
    hide Contents, OwnsText, OthersUntouched, Perm;
    forall i | 0 <= i < 4
      ensures Replaceable(codec, paths, files, paths.Owned()[i]) && !Foreign(codec, paths, files, paths.Owned()[i])
    {
      var path := paths.Owned()[i];
      assert Replaceable(codec, paths, before, path);
      ContentIsOwned(codec, paths, profile, path);
      assert InBetween(before, Contents(codec, paths, profile), files, path);
    }
  }

  lemma ContentIsOwned(codec: Codec, paths: AutomationPaths, profile: ManagedProfile, path: string)
    requires codec.RoundTrips() && paths.Apart() && profile.managedBy == MANAGED_BY && path in paths.OwnedSet()
    ensures path in Contents(codec, paths, profile)
    ensures OwnsText(codec, path == paths.profile, Contents(codec, paths, profile)[path])
  {
    hide ApplyUnit, VerifyUnit, VerifyTimer, OwnsText;
    UnitsAreOwned(codec, paths.binary);
    EncodedIsOwned(codec, profile);
  }

  // And wherever inside a write it dies, the files are as before or after that write.
  lemma DeathInsideWrite(paths: AutomationPaths, before: map<string, Node>, contents: map<string, string>, h: State,
                         job: AtomicFile.Job, replies: nat -> AtomicFile.Reply, t: nat, n: nat)
    requires Intermediate(paths, before, contents, h.files) && AtomicFile.FreshOn(job, h)
    requires job.path in contents && job.path in paths.OwnedSet() && job.data == contents[job.path] && job.mode == 420
    ensures Intermediate(paths, before, contents, AtomicFile.After(job, h, replies, t, n).files)
  {
    hide AtomicFile.After, AtomicFile.Steps, OthersUntouched, BackAt, Leave, Reach, Intermediate;
    AtomicFile.WriteIsOneOperation(job, h, replies, t, n);
    var files := AtomicFile.After(job, h, replies, t, n).files;
    if files != h.files { ChangedIsIntermediate(paths, before, contents, h.files, files, job.path); }
  }

  // What a run of Install did: the files it tried to write, in order, and the files after
  // each operation on them.
  datatype Account = Account(tried: seq<string>, trail: seq<map<string, Node>>)

  function LastFiles(before: map<string, Node>, trail: seq<map<string, Node>>): map<string, Node> {
    if trail == [] then before else trail[|trail| - 1]
  }

  predicate OneApart(paths: AutomationPaths, a: map<string, Node>, b: map<string, Node>) {
    exists path | path in paths.OwnedSet() :: b - {path} == a - {path}
  }

  // From each entry of the trail to the next at most one of the four files changes.
  ghost predicate Chained(paths: AutomationPaths, before: map<string, Node>, trail: seq<map<string, Node>>) {
    forall k | 0 <= k < |trail| :: OneApart(paths, LastFiles(before, trail[..k]), trail[k])
  }

  lemma ChainedNext(paths: AutomationPaths, before: map<string, Node>, trail: seq<map<string, Node>>, files: map<string, Node>)
    requires Chained(paths, before, trail) && OneApart(paths, LastFiles(before, trail), files)
    ensures Chained(paths, before, trail + [files]) && LastFiles(before, trail + [files]) == files
  {
    hide OneApart;
    var more := trail + [files];
    forall k | 0 <= k < |more| ensures OneApart(paths, LastFiles(before, more[..k]), more[k]) {
      assert more[..k] == trail[..k];
      if k < |trail| { assert OneApart(paths, LastFiles(before, trail[..k]), trail[k]); } else { assert trail[..k] == trail; }
    }
  }

  ghost predicate Accounts(paths: AutomationPaths, before: map<string, Node>, contents: map<string, string>, account: Account) {
    && Chained(paths, before, account.trail)
    && (forall k | 0 <= k < |account.trail| :: Intermediate(paths, before, contents, account.trail[k]))
    && (forall k | 0 <= k < |account.tried| :: account.tried[k] in paths.OwnedSet())
  }

  lemma SameEverywhere(paths: AutomationPaths, a: map<string, Node>, b: map<string, Node>)
    requires OthersUntouched(paths, a, b) && forall i | 0 <= i < 4 :: SameAt(a, b, paths.Owned()[i])
    ensures b == a
  {
    OthersAreSame(paths, a, b);
    forall path ensures SameAt(a, b, path) {
      if path in paths.OwnedSet() {
        assert path == paths.Owned()[0] || path == paths.Owned()[1] || path == paths.Owned()[2] || path == paths.Owned()[3];
      }
    }
    SameAtEveryPath(a, b);
  }

  lemma OthersAreSame(paths: AutomationPaths, a: map<string, Node>, b: map<string, Node>)
    requires OthersUntouched(paths, a, b)
    ensures forall path | path !in paths.OwnedSet() :: SameAt(a, b, path)
  {
    forall path | path !in paths.OwnedSet() ensures SameAt(a, b, path) {
      assert path in a <==> path in a - paths.OwnedSet();
      assert path in b <==> path in b - paths.OwnedSet();
      if path in a {
        assert a[path] == (a - paths.OwnedSet())[path];
        assert b[path] == (b - paths.OwnedSet())[path];
      }
    }
  }

  lemma NothingWritten(paths: AutomationPaths, files: map<string, Node>)
    ensures OthersUntouched(paths, files, files) && SameOwned(paths, files, files)
  {
  }

  lemma OneOwnedChanges(paths: AutomationPaths, before: map<string, Node>, a: map<string, Node>, b: map<string, Node>, path: string)
    requires path in paths.OwnedSet() && OthersUntouched(paths, before, a)
    requires b - {path} == a - {path}
    ensures OthersUntouched(paths, before, b)
  {
    assert b - paths.OwnedSet() == (b - {path}) - paths.OwnedSet();
    assert a - paths.OwnedSet() == (a - {path}) - paths.OwnedSet();
  }

  // The backups describe the four files, in order.
  predicate BackedUp(paths: AutomationPaths, files: map<string, Node>, backups: seq<FileSnapshot>, n: nat)
    requires n <= 4
  {
    && |backups| == n
    && forall i | 0 <= i < n :: backups[i].path == paths.Owned()[i] && FileTaken(files, paths.Owned()[i], backups[i])
  }

  lemma RestoredIsBack(a: map<string, Node>, b: map<string, Node>, path: string, file: FileSnapshot)
    requires FileTaken(a, path, file) && FileIs(b, path, file)
    ensures BackAt(a, b, path)
  {
    hide NodeAlike, SameAt, PlainAt, FileTaken, FileIs;
    RestoredFileIff(a, b, path, file);
  }

  predicate DanglingAt(files: map<string, Node>, path: string) {
    path in files && files[path].Dangling?
  }

  predicate NoneDangling(paths: AutomationPaths, files: map<string, Node>) {
    forall i | 0 <= i < 4 :: !DanglingAt(files, paths.Owned()[i])
  }

  predicate NoneLeft(paths: AutomationPaths, files: map<string, Node>) {
    forall i | 0 <= i < 4 :: paths.Owned()[i] !in files
  }

  // What Uninstall did about one of the files.
  predicate Handled(codec: Codec, paths: AutomationPaths, before: map<string, Node>, after: map<string, Node>,
                    errs: seq<Failure>, path: string)
  {
    if NotFound(before, path) then SameAt(before, after, path)
    else if Foreign(codec, paths, before, path) then
      && path in after && after[path] == before[path]
      && (NotOwned(path) in errs || InspectFailed(path) in errs)
    else path !in after || InspectFailed(path) in errs || RemoveFailed(path) in errs
  }

  predicate OnlyForeignRefused(codec: Codec, paths: AutomationPaths, before: map<string, Node>, errs: seq<Failure>) {
    forall f | f in errs && f.NotOwned? :: f.path in paths.OwnedSet() && Foreign(codec, paths, before, f.path)
  }

  // ---------- missing units ----------

  function LowerChar(c: char): char {
    if 'A' <= c <= 'Z' then c - 'A' + 'a' else c
  }

  function ToLower(s: string): string {
    seq(|s|, i requires 0 <= i < |s| => LowerChar(s[i]))
  }

  predicate IsMissingUnitError(message: string) {
    var text := ToLower(message);
    Contains(text, "not loaded") || Contains(text, "does not exist") || Contains(text, "not found")
  }

  // One letter of either case.
  predicate SameLetter(c: char, lower: char) {
    c == lower || ('a' <= lower <= 'z' && c == lower - 'a' + 'A')
  }

  // A text says a phrase, in letters of either case.
  predicate SaysAt(message: string, phrase: string, i: nat) {
    i + |phrase| <= |message| && forall k | 0 <= k < |phrase| :: SameLetter(message[i + k], phrase[k])
  }

  lemma LowerIff(c: char, lower: char)
    requires !('A' <= lower <= 'Z')
    ensures LowerChar(c) == lower <==> SameLetter(c, lower)
  {
  }

  lemma ContainsIff(message: string, phrase: string)
    requires forall k | 0 <= k < |phrase| :: !('A' <= phrase[k] <= 'Z')
    ensures Contains(ToLower(message), phrase) <==> exists i: nat :: SaysAt(message, phrase, i)
  {
    hide LowerChar;
    var text := ToLower(message);
    forall i: nat | i + |phrase| <= |text| ensures OccursAt(text, phrase, i) <==> SaysAt(message, phrase, i) {
      forall k | 0 <= k < |phrase| ensures text[i + k] == phrase[k] <==> SameLetter(message[i + k], phrase[k]) {
        LowerIff(message[i + k], phrase[k]);
      }
      if forall k | 0 <= k < |phrase| :: SameLetter(message[i + k], phrase[k]) {
        assert text[i..i + |phrase|] == phrase;
      }
      if text[i..i + |phrase|] == phrase {
        forall k | 0 <= k < |phrase| ensures text[i + k] == phrase[k] { assert text[i..i + |phrase|][k] == text[i + k]; }
      }
    }
    if i: nat :| SaysAt(message, phrase, i) { assert OccursAt(text, phrase, i); }
  }

  // Tolerated is exactly a message that says, in letters of either case, that the unit is
  // not loaded, does not exist or was not found.
  lemma MissingUnitIff(message: string)
    ensures IsMissingUnitError(message) <==>
            || (exists i: nat :: SaysAt(message, "not loaded", i))
            || (exists i: nat :: SaysAt(message, "does not exist", i))
            || (exists i: nat :: SaysAt(message, "not found", i))
  {
    hide Contains, ToLower, SaysAt;
    ContainsIff(message, "not loaded");
    ContainsIff(message, "does not exist");
    ContainsIff(message, "not found");
  }

  // A disable command succeeded, or failed because there is no such unit.
  predicate Tolerated(a: Answer) {
    a.ok || IsMissingUnitError(a.text)
  }

  // The next n operations succeed.
  predicate OkNext(n: nat, world: nat -> Answer, t: nat) {
    n == 0 || (OkNext(n - 1, world, t) && world(t + n - 1).ok)
  }

  lemma {:induction false} OkOneMore(n: nat, i: nat, world: nat -> Answer, t: nat)
    requires i < n
    ensures OkNext(n, world, t) ==> world(t + i).ok
    ensures OkNext(i + 1, world, t) <==> OkNext(i, world, t) && world(t + i).ok
  {
    if i < n - 1 { OkOneMore(n - 1, i, world, t); }
  }

  lemma NoneNext(world: nat -> Answer, t: nat)
    ensures OkNext(0, world, t)
  {
  }

  lemma {:induction false} AllOkNext(n: nat, world: nat -> Answer, t: nat)
    requires AllOk(world)
    ensures OkNext(n, world, t)
  {
    if n > 0 { AllOkNext(n - 1, world, t); }
  }

  ghost predicate OkFrom(world: nat -> Answer, t: nat) {
    forall u: nat :: u >= t ==> world(u).ok
  }

  // ---------- commands ----------

  const RELOAD := "systemctl daemon-reload"
  const ENABLE_SERVICE := "systemctl enable sshappy-tune-apply.service"
  const ENABLE_TIMER := "systemctl enable --now sshappy-tune-verify.timer"
  const DISABLE_SERVICE := "systemctl disable sshappy-tune-apply.service"
  const DISABLE_TIMER := "systemctl disable --now sshappy-tune-verify.timer"

  // Installing is undone by disabling what had not been there, and reloading.
  function Undoing(paths: AutomationPaths, before: map<string, Node>): seq<string> {
    (if paths.timer in before then [] else ["systemctl disable --now sshappy-tune-verify.timer"])
    + (if paths.applyUnit in before then [] else ["systemctl disable sshappy-tune-apply.service"])
    + ["systemctl daemon-reload"]
  }

  // Enabling goes as far as its first failure.
  function Enabling(k: nat): seq<string>
    requires k <= 3
  {
    ["systemctl daemon-reload", "systemctl enable sshappy-tune-apply.service",
     "systemctl enable --now sshappy-tune-verify.timer"][..k]
  }

  function Removing(): seq<string> {
    ["systemctl disable --now sshappy-tune-verify.timer", "systemctl disable sshappy-tune-apply.service",
     "systemctl daemon-reload"]
  }

  lemma CommandsAre(paths: AutomationPaths, before: map<string, Node>)
    ensures Enabling(0) == [] && Enabling(1) == [RELOAD] && Enabling(2) == [RELOAD, ENABLE_SERVICE]
    ensures Enabling(3) == [RELOAD, ENABLE_SERVICE, ENABLE_TIMER]
    ensures Removing() == [DISABLE_TIMER, DISABLE_SERVICE, RELOAD]
    ensures Undoing(paths, before) ==
            (if paths.timer in before then [] else [DISABLE_TIMER])
            + (if paths.applyUnit in before then [] else [DISABLE_SERVICE]) + [RELOAD]
  {
  }

  lemma NoCommands()
    ensures Enabling(0) == []
  {
  }

  // What systemd was told before and in undoing an installation that failed.
  predicate ToldToUndo(paths: AutomationPaths, before: map<string, Node>, failure: Option<Failure>, told: seq<string>,
                       now: seq<string>)
  {
    exists k | 0 <= k <= 3 :: now == told + Enabling(k) + Undoing(paths, before)
                              && (k > 0 <==> failure.Some? && failure.value.CommandFailed?)
  }

  class AutomationInstaller {
    const host: Host
    const paths: AutomationPaths
    const codec: Codec
    const initialized: bool
    const binaryOk: bool
    const euid: int

    constructor (host: Host, paths: AutomationPaths, codec: Codec,
                 initialized: bool, binaryOk: bool, euid: int)
      ensures this.host == host && this.paths == paths && this.codec == codec
      ensures this.initialized == initialized && this.binaryOk == binaryOk && this.euid == euid
    {
      this.host, this.paths, this.codec := host, paths, codec;
      this.initialized, this.binaryOk, this.euid := initialized, binaryOk, euid;
    }

    // ready
    function Unready(requireBinary: bool): Option<Failure> {
      if !initialized then Some(NotReady)
      else if euid != 0 then Some(NotRoot)
      else if !paths.Sound() || (requireBinary && !binaryOk) then Some(NotReady)
      else None
    }

    // renderProfile refuses a profile that is not a current one of the tool's.
    predicate Renders(profile: ManagedProfile) {
      profile.version == PROFILE_VERSION && profile.managedBy == MANAGED_BY
    }

    // From t on: the lock, the two disable commands, then everything else.
    ghost predicate RunsSmoothly(t: nat) {
      && host.world(t).ok && Tolerated(host.world(t + 1)) && Tolerated(host.world(t + 2)) && OkFrom(host.world, t + 3)
    }

    method Run(command: string) returns (r: Result<(), string>)
      modifies host`tick, host`commands
      ensures host.tick == old(host.tick) + 1 && host.commands == old(host.commands) + [command]
      ensures r == if host.world(old(host.tick)).ok then Ok(()) else Err(host.world(old(host.tick)).text)
    {
      var a := host.Ask();
      host.commands := host.commands + [command];
      r := if a.ok then Ok(()) else Err(a.text);
    }

    method Lock() returns (ok: bool)
      modifies host`tick, host`automationLocked
      ensures host.tick == old(host.tick) + 1
      ensures ok <==> host.world(old(host.tick)).ok && !old(host.automationLocked)
      ensures host.automationLocked == (old(host.automationLocked) || ok)
    {
      var a := host.Ask();
      ok := a.ok && !host.automationLocked;
      if ok { host.automationLocked := true; }
    }

    // captureOwnedFile: refuses what is not regular or not the tool's.
    method CaptureOwnedFile(path: string) returns (r: Result<FileSnapshot, Failure>)
      modifies host`tick
      ensures host.tick == old(host.tick) + 1
      ensures r.Ok? <==> host.world(old(host.tick)).ok && Replaceable(codec, paths, host.files, path)
      ensures r.Ok? ==> r.value.path == path && FileTaken(host.files, path, r.value)
      ensures r.Err? ==> r.error == CaptureFailed(path) || r.error == NotOwned(path)
    {
      var a := host.Ask();
      if !a.ok { return Err(CaptureFailed(path)); }
      if path !in host.files { return Ok(FileSnapshot(path, false, 0, "")); }
      match host.files[path]
      case Regular(mode, data) =>
        if !OwnsText(codec, path == paths.profile, data) { return Err(NotOwned(path)); }
        return Ok(FileSnapshot(path, true, Perm(mode), data));
      case _ => return Err(CaptureFailed(path));
    }

    // capture: the four files in order, or the first refusal; changes nothing.
    method Capture() returns (r: Result<seq<FileSnapshot>, Failure>)
      modifies host`tick
      ensures r.Ok? ==> BackedUp(paths, host.files, r.value, 4)
      ensures r.Ok? <==> AllReplaceable(codec, paths, host.files) && OkNext(4, host.world, old(host.tick))
      ensures old(host.tick) <= host.tick <= old(host.tick) + 4
      ensures r.Ok? ==> host.tick == old(host.tick) + 4
      ensures r.Err? ==> r.error.CaptureFailed? || r.error.NotOwned?
    {
      hide Replaceable, FileTaken;
      var backups := [];
      var owned := paths.Owned();
      for i := 0 to 4
        invariant host.tick == old(host.tick) + i
        invariant BackedUp(paths, host.files, backups, i)
        invariant OkNext(i, host.world, old(host.tick))
        invariant forall k | 0 <= k < i :: Replaceable(codec, paths, host.files, owned[k])
      {
        OkOneMore(4, i, host.world, old(host.tick));
        var file := CaptureOwnedFile(owned[i]);
        if file.Err? { return Err(file.error); }
        backups := backups + [file.value];
      }
      return Ok(backups);
    }

    // PreflightInstall: what Install would refuse, found out without writing.
    method PreflightInstall(profile: ManagedProfile) returns (failure: Option<Failure>)
      modifies host`tick
      ensures failure.None? <==>
                && initialized && euid == 0 && paths.Sound() && binaryOk
                && profile.version == 1 && profile.managedBy == "sshappy-tune"
                && AllReplaceable(codec, paths, host.files) && OkNext(4, host.world, old(host.tick))
      ensures failure.None? ==> host.tick == old(host.tick) + 4
      ensures old(host.tick) <= host.tick <= old(host.tick) + 4
    {
      if Unready(true).Some? { return Unready(true); }
      if !Renders(profile) { return Some(NotOwned(paths.profile)); }
      var captured := Capture();
      if captured.Err? { return Some(captured.error); }
      return None;
    }

    // restoreOwnedFiles: all four are tried, whatever fails.
    method RestoreOwnedFiles(backups: seq<FileSnapshot>, ghost before: map<string, Node>,
                             ghost contents: map<string, string>, ghost account: Account)
      returns (errs: seq<Failure>, ghost full: Account)
      requires paths.Apart() && BackedUp(paths, before, backups, 4)
      requires Intermediate(paths, before, contents, host.files) && Accounts(paths, before, contents, account)
      requires LastFiles(before, account.trail) == host.files
      ensures Accounts(paths, before, contents, full) && full.tried == account.tried
      ensures LastFiles(before, full.trail) == host.files
      ensures old(host.dirs) <= host.dirs <= old(host.dirs) + AboveOwned(paths)
      ensures Rooted(paths, before, old(host.dirs)) ==> host.dirs == old(host.dirs)
      modifies host`tick, host`files, host`dirs, host`strays
      ensures OthersUntouched(paths, before, host.files)
      ensures BackOrReported(paths, before, host.files, errs)
      ensures host.tick == old(host.tick) + 4 && (errs == [] <==> OkNext(4, host.world, old(host.tick)))
      ensures StraysFollow(old(host.strays), host.strays, host.world)
    {
      hide RestoreOwned, FileTaken, FileIs, OthersUntouched, BackAt, StraysFollow, AboveOwned, Rooted, InBetween, Accounts,
           OkNext, Intermediate;
      FollowsItself(host.strays, host.world);
      errs, full := [], account;
      assert OkNext(0, host.world, host.tick) by { NoneNext(host.world, host.tick); }
      for i := 0 to 4
        invariant Intermediate(paths, before, contents, host.files) && Accounts(paths, before, contents, full)
        invariant host.tick == old(host.tick) + i && (errs == [] <==> OkNext(i, host.world, old(host.tick)))
        invariant full.tried == account.tried && LastFiles(before, full.trail) == host.files
        invariant old(host.dirs) <= host.dirs <= old(host.dirs) + AboveOwned(paths)
        invariant Rooted(paths, before, old(host.dirs)) ==> host.dirs == old(host.dirs)
        invariant StraysFollow(old(host.strays), host.strays, host.world)
        invariant forall k | 0 <= k < i ::
                    FileIs(host.files, paths.Owned()[k], backups[k]) || RestoreFailed(paths.Owned()[k]) in errs
      {
        OkOneMore(4, i, host.world, old(host.tick));
        ghost var h, a := host.View(), host.world(host.tick);
        FileOperationIsLocal(h, backups[i], a);
        RestoreIsAccounted(paths, before, contents, h, backups[i], a, full);
        RestoreReach(paths, before, old(host.dirs), h, backups[i], i, a);
        RestoreFollows(old(host.strays), h, backups[i], host.world, host.tick);
        var ok := host.RestoreFile(backups[i]);
        full := full.(trail := full.trail + [host.files]);
        if !ok { errs := errs + [RestoreFailed(backups[i].path)]; }
      }
      IntermediateOthers(paths, before, contents, host.files);
      forall k | 0 <= k < 4 && RestoreFailed(paths.Owned()[k]) !in errs
        ensures BackAt(before, host.files, paths.Owned()[k])
      {
        RestoredIsBack(before, host.files, paths.Owned()[k], backups[k]);
      }
    }

    // restoreInstall: units that did not exist are disabled, the files are restored and
    // systemd is reloaded; only file and reload errors are reported.
    method RestoreInstall(backups: seq<FileSnapshot>, ghost before: map<string, Node>,
                          ghost contents: map<string, string>, ghost account: Account)
      returns (errs: seq<Failure>, ghost full: Account)
      requires paths.Apart() && BackedUp(paths, before, backups, 4)
      requires Intermediate(paths, before, contents, host.files) && Accounts(paths, before, contents, account)
      requires LastFiles(before, account.trail) == host.files
      ensures Accounts(paths, before, contents, full) && full.tried == account.tried
      ensures LastFiles(before, full.trail) == host.files
      ensures old(host.dirs) <= host.dirs <= old(host.dirs) + AboveOwned(paths)
      ensures Rooted(paths, before, old(host.dirs)) ==> host.dirs == old(host.dirs)
      modifies host`tick, host`files, host`dirs, host`strays, host`commands
      ensures host.commands == old(host.commands) + Undoing(paths, before)
      // Only the four files and the reload count; that a unit could not be disabled does not.
      ensures host.tick >= 5 && (errs == [] <==> OkNext(5, host.world, host.tick - 5))
      ensures OthersUntouched(paths, before, host.files)
      ensures BackOrReported(paths, before, host.files, errs)
      ensures StraysFollow(old(host.strays), host.strays, host.world)
    {
      hide Intermediate, OthersUntouched, BackAt, StraysFollow, AboveOwned, Rooted, Accounts, RELOAD, DISABLE_TIMER,
           DISABLE_SERVICE, Undoing, Enabling, Removing, OkNext;
      CommandsAre(paths, before);
      assert FileTaken(before, paths.Owned()[3], backups[3]) && FileTaken(before, paths.Owned()[1], backups[1]);
      if !backups[3].present { var _ := Run(DISABLE_TIMER); }
      if !backups[1].present { var _ := Run(DISABLE_SERVICE); }
      errs, full := RestoreOwnedFiles(backups, before, contents, account);
      var reload := Run(RELOAD);
      OkOneMore(5, 4, host.world, host.tick - 5);
      if reload.Err? { errs := errs + [CommandFailed(reload.error)]; }
    }

    // Writes the contents in an arbitrary order, up to the first failure.
    method WriteAll(contents: map<string, string>, ghost before: map<string, Node>)
      returns (failure: Option<Failure>, ghost account: Account)
      requires contents.Keys == paths.OwnedSet()
      requires Intermediate(paths, before, contents, host.files)
      requires before == host.files
      ensures Intermediate(paths, before, contents, host.files) && Accounts(paths, before, contents, account)
      ensures LastFiles(before, account.trail) == host.files
      ensures host.dirs == old(host.dirs) + Came(account.tried, host.world, old(host.tick))
      ensures failure.None? ==> AboveOwned(paths) <= host.dirs && Everything(account.tried)
      ensures account.tried != []
      ensures failure.Some? ==> failure == Some(WriteFailed(account.tried[|account.tried| - 1]))
      modifies host`tick, host`files, host`dirs, host`strays
      ensures OthersUntouched(paths, before, host.files)
      ensures failure.None? ==> Writes(host.files, contents)
      ensures StraysFollow(old(host.strays), host.strays, host.world)
      ensures AllOk(host.world) ==> failure.None?
    {
      hide AutomationPaths.OwnedSet, StraysFollow, Leave, Intermediate, Came, Reach, Above, AboveOwned, Accounts,
           OthersUntouched;
      FollowsItself(host.strays, host.world);
      failure, account := None, Account([], []);
      NothingCame(host.world, host.tick);
      NoAccount(paths, before, contents);
      IntermediateOthers(paths, before, contents, host.files);
      var rest := contents.Keys;
      while rest != {}
        invariant rest <= contents.Keys
        invariant StraysFollow(old(host.strays), host.strays, host.world)
        invariant Intermediate(paths, before, contents, host.files) && Accounts(paths, before, contents, account)
        invariant OthersUntouched(paths, before, host.files)
        invariant LastFiles(before, account.trail) == host.files
        invariant host.tick == old(host.tick) + |account.tried|
        invariant host.dirs == old(host.dirs) + Came(account.tried, host.world, old(host.tick))
        invariant forall path | path in contents && path !in rest :: path in account.tried && Above(path) <= host.dirs
        invariant forall path | path in contents && path !in rest ::
                    path in host.files && host.files[path] == Regular(420, contents[path])
        decreases |rest|
      {
        var path :| path in rest;
        ghost var h, a := host.View(), host.world(host.tick);
        LeaveFollows(old(host.strays), host.strays, host.world, host.tick);
        WriteIsAccounted(paths, before, contents, h, path, a, account);
        CameNext(account.tried, path, host.world, old(host.tick));
        var ok := host.AtomicWrite(path, contents[path], 420);
        account := Account(account.tried + [path], account.trail + [host.files]);
        IntermediateOthers(paths, before, contents, host.files);
        if !ok { return Some(WriteFailed(path)), account; }
        rest := rest - {path};
      }
      AllTried(paths, contents, account, host.dirs);
    }

    // daemon-reload, enable the apply service, enable and start the timer.
    method EnableUnits() returns (failure: Option<Failure>)
      modifies host`tick, host`commands
      ensures exists k | 1 <= k <= 3 :: host.commands == old(host.commands) + Enabling(k) && (failure.None? ==> k == 3)
      ensures failure.None? <==>
                host.world(old(host.tick)).ok && host.world(old(host.tick) + 1).ok && host.world(old(host.tick) + 2).ok
      ensures failure.Some? ==> failure.value.CommandFailed?
    {
      hide RELOAD, ENABLE_SERVICE, ENABLE_TIMER, Enabling, Removing, Undoing;
      CommandsAre(paths, map[]);
      var reload := Run(RELOAD);
      assert host.commands == old(host.commands) + Enabling(1);
      if reload.Err? { return Some(CommandFailed(reload.error)); }
      var service := Run(ENABLE_SERVICE);
      assert host.commands == old(host.commands) + Enabling(2);
      if service.Err? { return Some(CommandFailed(service.error)); }
      var timer := Run(ENABLE_TIMER);
      assert host.commands == old(host.commands) + Enabling(3);
      if timer.Err? { return Some(CommandFailed(timer.error)); }
      return None;
    }

    // Install: under its own lock.  On success the four rendered files are in place; on
    // failure each is as captured or reported as not restored, for every order in which the
    // contents are written.  A foreign or irregular file stops it before any write.
    method Install(profile: ManagedProfile) returns (report: InstallReport, ghost account: Account)
      requires paths.Apart()
      modifies host`tick, host`files, host`dirs, host`strays, host`automationLocked, host`commands
      ensures host.automationLocked == old(host.automationLocked)
      ensures OthersUntouched(paths, old(host.files), host.files)
      ensures report.failure.None? ==> Writes(host.files, Contents(codec, paths, profile)) && report.restoreFailures == []
      // Success: the files say what is promised, and systemd has been told.
      ensures report.failure.None? && codec.RoundTrips() ==> Automated(codec, paths, host.files, profile)
      ensures report.failure.None? ==> host.commands == old(host.commands) + Enabling(3)
      ensures report.failure.Some? && !report.undone ==> host.commands == old(host.commands)
      ensures report.undone ==> host.tick >= 5 && (report.restoreFailures == [] <==> OkNext(5, host.world, host.tick - 5))
      ensures report.undone ==>
                ToldToUndo(paths, old(host.files), report.failure, old(host.commands), host.commands)
      // Refused before anything is touched: not initialised, not root, unsound paths, no proper
      // binary, or a profile that is not the tool's.
      ensures (!initialized || euid != 0 || !paths.Sound() || !binaryOk
               || profile.version != 1 || profile.managedBy != "sshappy-tune") ==>
                report.failure.Some? && !report.undone
      ensures report.failure.Some? && !report.undone ==> host.files == old(host.files) && report.restoreFailures == []
      ensures report.failure.Some? && report.undone ==>
                BackOrReported(paths, old(host.files), host.files, report.restoreFailures)
      // At every point between its operations the files are old, restored or completely
      // written; the account of them is without a gap.
      ensures Accounts(paths, old(host.files), Contents(codec, paths, profile), account)
      ensures LastFiles(old(host.files), account.trail) == host.files
      // Directories are only added, above the four files: all of those once the files are
      // written, otherwise those that the tried writes came to.
      ensures DirsFollow(old(host.files), old(host.dirs), old(host.tick) + 5, report, account)
      // Undone without error, the tree is as before exactly if the modes were plain and the
      // directories the writes came to had been there.
      ensures (report.failure.Some? && report.restoreFailures == [] && paths.lockFile !in paths.OwnedSet()
               && Rooted(paths, old(host.files), old(host.dirs))) ==>
                (SameTree(paths, old(host.files), old(host.dirs), host.files, host.dirs) <==>
                   !report.undone || (PlainOwned(paths, old(host.files))
                     && Came(account.tried, host.world, old(host.tick) + 5) <= old(host.dirs) + Above(paths.lockFile)))
      ensures report.failure.Some? && report.restoreFailures == [] ==>
                && SameOwned(paths, old(host.files), host.files)
                && (host.files == old(host.files) <==> !report.undone || PlainOwned(paths, old(host.files)))
      ensures StraysFollow(old(host.strays), host.strays, host.world)
      ensures !AllReplaceable(codec, paths, old(host.files)) || old(host.automationLocked) ==>
                host.files == old(host.files) && report.failure.Some?
      ensures (Unready(true).None? && Renders(profile) && AllReplaceable(codec, paths, old(host.files))
               && !old(host.automationLocked) && AllOk(host.world)) ==> report.failure.None?
    {
      hide Contents, AllReplaceable, OthersUntouched, SameOwned, BackOrReported, PlainOwned, Writes, StraysFollow, SameTree,
           AboveOwned, Rooted, Came, Accounts, Automated, Undoing, Enabling, AutomationPaths.Sound, Codec.RoundTrips, OkNext;
      NothingWritten(paths, host.files);
      FollowsItself(host.strays, host.world);
      account := Account([], []);
      NoAccount(paths, host.files, Contents(codec, paths, profile));
      TreeIsItself(paths, host.files, host.dirs);
      NothingCame(host.world, host.tick + 5);
      if Unready(true).Some? { return InstallReport(Unready(true), [], false), account; }
      var granted := Lock();
      if !granted { return InstallReport(Some(LockBusy), [], false), account; }
      report, account := InstallLocked(profile);
      host.automationLocked := false;
      if report.failure.None? && codec.RoundTrips() { WrittenIsAutomated(codec, paths, profile, host.files); }
      if report.undone && report.restoreFailures == [] {
        AllBackIff(paths, old(host.files), host.files);
        if paths.lockFile !in paths.OwnedSet() && Rooted(paths, old(host.files), old(host.dirs)) {
          TreeBackIff(paths, old(host.files), old(host.dirs), host.files, host.dirs,
                      Came(account.tried, host.world, old(host.tick) + 5));
        }
      }
    }

    // It failed at the last write it tried, or at a unit after trying all four.
    predicate TriedUpTo(failure: Option<Failure>, tried: seq<string>) {
      && tried != [] && failure.Some?
      && (failure.value == WriteFailed(tried[|tried| - 1]) || (failure.value.CommandFailed? && Everything(tried)))
    }

    predicate Everything(tried: seq<string>) {
      forall path | path in paths.OwnedSet() :: path in tried
    }

    // What Install makes of the directories that were there.
    ghost predicate DirsFollow(files: map<string, Node>, dirs: set<string>, t: nat, report: InstallReport, account: Account)
      reads host
    {
      && dirs <= host.dirs <= dirs + AboveOwned(paths)
      && (report.failure.None? || report.failure.value.CommandFailed? ==> AboveOwned(paths) <= host.dirs)
      && (report.failure.Some? && !report.undone ==> host.dirs == dirs && account.tried == [])
      && (!report.undone || Rooted(paths, files, dirs) ==> host.dirs == dirs + Came(account.tried, host.world, t))
      && (report.undone ==> TriedUpTo(report.failure, account.tried))
    }

    // Everything that may have to be undone, up to the first failure.
    method WriteAndEnable(contents: map<string, string>, ghost before: map<string, Node>)
      returns (failure: Option<Failure>, ghost account: Account, ghost k: nat)
      requires contents.Keys == paths.OwnedSet() && before == host.files
      requires Intermediate(paths, before, contents, host.files)
      modifies host`tick, host`files, host`dirs, host`strays, host`commands
      ensures Intermediate(paths, before, contents, host.files) && Accounts(paths, before, contents, account)
      ensures LastFiles(before, account.trail) == host.files && OthersUntouched(paths, before, host.files)
      ensures host.dirs == old(host.dirs) + Came(account.tried, host.world, old(host.tick))
      ensures failure.None? || failure.value.CommandFailed? ==> AboveOwned(paths) <= host.dirs
      ensures failure.None? ==> Writes(host.files, contents)
      ensures failure.Some? ==> TriedUpTo(failure, account.tried)
      ensures k <= 3 && host.commands == old(host.commands) + Enabling(k)
      ensures (failure.None? ==> k == 3) && (failure.Some? ==> (k > 0 <==> failure.value.CommandFailed?))
      ensures StraysFollow(old(host.strays), host.strays, host.world)
      ensures AllOk(host.world) ==> failure.None?
    {
      hide OthersUntouched, Writes, AutomationPaths.OwnedSet, AboveOwned, Came, Accounts, Intermediate, Enabling, StraysFollow,
           LastFiles;
      failure, account := WriteAll(contents, before);
      k := 0;
      NoCommands();
      if failure.None? {
        failure := EnableUnits();
        k :| 1 <= k <= 3 && host.commands == old(host.commands) + Enabling(k) && (failure.None? ==> k == 3);
      }
    }

    method InstallLocked(profile: ManagedProfile) returns (report: InstallReport, ghost account: Account)
      requires paths.Apart()
      modifies host`tick, host`files, host`dirs, host`strays, host`commands
      ensures report.failure.None? ==> host.commands == old(host.commands) + Enabling(3)
      ensures report.failure.Some? && !report.undone ==> host.commands == old(host.commands)
      ensures report.undone ==> host.tick >= 5 && (report.restoreFailures == [] <==> OkNext(5, host.world, host.tick - 5))
      ensures report.undone ==>
                ToldToUndo(paths, old(host.files), report.failure, old(host.commands), host.commands)
      ensures !Renders(profile) ==> report.failure.Some? && !report.undone
      ensures OthersUntouched(paths, old(host.files), host.files)
      ensures report.failure.None? ==> Writes(host.files, Contents(codec, paths, profile)) && report.restoreFailures == []
      ensures report.failure.None? ==> !report.undone
      ensures Accounts(paths, old(host.files), Contents(codec, paths, profile), account)
      ensures LastFiles(old(host.files), account.trail) == host.files
      ensures DirsFollow(old(host.files), old(host.dirs), old(host.tick) + 4, report, account)
      ensures report.failure.Some? && !report.undone ==> host.files == old(host.files) && report.restoreFailures == []
      ensures report.failure.Some? && report.undone ==>
                BackOrReported(paths, old(host.files), host.files, report.restoreFailures)
      ensures StraysFollow(old(host.strays), host.strays, host.world)
      ensures !AllReplaceable(codec, paths, old(host.files)) ==> host.files == old(host.files) && report.failure.Some?
      ensures Renders(profile) && AllReplaceable(codec, paths, old(host.files)) && AllOk(host.world) ==> report.failure.None?
    {
      hide AllReplaceable, OthersUntouched, SameOwned, BackOrReported, Writes, Contents, BackedUp,
           AutomationPaths.OwnedSet, AboveOwned, Rooted, Came, Accounts, Intermediate, Enabling, Undoing, OkNext, StraysFollow,
           LastFiles;
      ghost var before := host.files;
      account := Account([], []);
      NoAccount(paths, before, Contents(codec, paths, profile));
      assert LastFiles(before, account.trail) == before by { NothingYet(before); }
      NothingWritten(paths, before);
      NothingCame(host.world, host.tick + 4);
      FollowsItself(host.strays, host.world);
      if !Renders(profile) { return InstallReport(Some(NotOwned(paths.profile)), [], false), account; }
      var contents := Contents(codec, paths, profile);
      ContentsKeys(codec, paths, profile);
      if AllOk(host.world) { AllOkNext(4, host.world, host.tick); }
      var captured := Capture();
      if captured.Err? { return InstallReport(Some(captured.error), [], false), account; }
      BeforeIsIntermediate(paths, before, contents);
      var failure;
      ghost var k;
      failure, account, k := WriteAndEnable(contents, before);
      AccountIsAbove(paths, before, contents, account, host.world, old(host.tick) + 4);
      if failure.None? { return InstallReport(None, [], false), account; }
      ghost var written, strays := host.dirs, host.strays;
      if Rooted(paths, before, old(host.dirs)) { StillRooted(paths, before, old(host.dirs), written); }
      var errs;
      errs, account := RestoreInstall(captured.value, before, contents, account);
      FollowOn(old(host.strays), strays, host.strays, host.world);
      assert host.commands == old(host.commands) + Enabling(k) + Undoing(paths, before);
      report := InstallReport(failure, errs, true);
    }

    // removeIfOwned
    method RemoveIfOwned(path: string, ghost before: map<string, Node>) returns (failure: Option<Failure>)
      requires SameAt(before, host.files, path)
      modifies host`tick, host`files
      ensures (host.files, failure) ==
              Removal(codec, paths, old(host.files), path, host.world(old(host.tick)), host.world(old(host.tick) + 1))
      ensures host.files - {path} == old(host.files) - {path}
      ensures Handled(codec, paths, before, host.files, if failure.Some? then [failure.value] else [], path)
      ensures failure.Some? ==>
                failure.value == InspectFailed(path) || failure.value == RemoveFailed(path)
                || (failure.value == NotOwned(path) && Foreign(codec, paths, before, path))
      ensures host.tick >= old(host.tick)
      ensures OkFrom(host.world, old(host.tick)) && !Foreign(codec, paths, before, path) ==> failure.None?
    {
      hide OwnsText;
      var a := host.Ask();
      if !a.ok { return Some(InspectFailed(path)); }
      if NotFound(host.files, path) { return None; }
      var text := ReadThrough(host.files[path]);
      if text.None? { return Some(InspectFailed(path)); }
      if !OwnsText(codec, path == paths.profile, text.value) { return Some(NotOwned(path)); }
      var ok := host.Remove(path);
      if !ok { return Some(RemoveFailed(path)); }
      return None;
    }

    // The removal loop: one file failing does not stop the others.
    method RemoveOwned(ghost before: map<string, Node>) returns (errs: seq<Failure>)
      requires paths.Apart() && before == host.files
      modifies host`tick, host`files
      ensures OthersUntouched(paths, before, host.files)
      ensures forall i | 0 <= i < 4 :: Handled(codec, paths, before, host.files, errs, paths.Owned()[i])
      ensures OnlyForeignRefused(codec, paths, before, errs)
      ensures host.tick >= old(host.tick)
      ensures OkFrom(host.world, old(host.tick)) && NoneForeign(codec, paths, before) ==> errs == []
    {
      hide Foreign, Handled, OthersUntouched;
      NothingWritten(paths, before);
      errs := [];
      var owned := paths.Owned();
      for i := 0 to 4
        invariant OthersUntouched(paths, before, host.files)
        invariant forall k | i <= k < 4 :: SameAt(before, host.files, owned[k])
        invariant forall k | 0 <= k < i :: Handled(codec, paths, before, host.files, errs, owned[k])
        invariant OnlyForeignRefused(codec, paths, before, errs)
        invariant host.tick >= old(host.tick)
        invariant OkFrom(host.world, old(host.tick)) && NoneForeign(codec, paths, before) ==> errs == []
      {
        ghost var files, sofar := host.files, errs;
        assert SameAt(before, files, owned[i]);
        var failure := RemoveIfOwned(owned[i], before);
        if failure.Some? { errs := errs + [failure.value]; }
        OneOwnedChanges(paths, before, files, host.files, owned[i]);
        HandledElsewhere(codec, paths, before, files, host.files, sofar, errs, i);
        HandledLater(codec, paths, before, host.files, if failure.Some? then [failure.value] else [], errs, owned[i]);
      }
    }

    // Uninstall: no foreign file is touched and each is reported; every file of the tool's
    // is gone or its removal reported; without an error exactly the dangling links are left.
    method Uninstall() returns (errs: seq<Failure>)
      requires paths.Apart()
      modifies host`tick, host`files, host`automationLocked, host`commands
      ensures host.automationLocked == old(host.automationLocked)
      // Refused before anything is touched: not initialised, not root, unsound paths or the
      // lock; the binary may be gone.  Otherwise three commands, whatever they answer.
      ensures !initialized || euid != 0 || !paths.Sound() || old(host.automationLocked) || !host.world(old(host.tick)).ok ==>
                host.files == old(host.files) && errs != [] && host.commands == old(host.commands)
      ensures initialized && euid == 0 && paths.Sound() && !old(host.automationLocked) && host.world(old(host.tick)).ok ==>
                host.commands == old(host.commands) + Removing()
      ensures initialized && euid == 0 && paths.Sound() && !old(host.automationLocked) && host.world(old(host.tick)).ok ==>
                host.tick > 0 && (!host.world(host.tick - 1).ok ==> errs != [])
      ensures OthersUntouched(paths, old(host.files), host.files)
      ensures Unready(false).Some? || old(host.automationLocked) || !host.world(old(host.tick)).ok ==>
                host.files == old(host.files) && errs != []
      ensures Unready(false).None? && !old(host.automationLocked) && host.world(old(host.tick)).ok ==>
              forall i | 0 <= i < 4 :: Handled(codec, paths, old(host.files), host.files, errs, paths.Owned()[i])
      ensures errs == [] ==>
                forall i | 0 <= i < 4 :: paths.Owned()[i] in host.files <==> DanglingAt(old(host.files), paths.Owned()[i])
      ensures errs == [] ==> (NoneLeft(paths, host.files) <==> NoneDangling(paths, old(host.files)))
      ensures OnlyForeignRefused(codec, paths, old(host.files), errs)
      ensures (Unready(false).None? && !old(host.automationLocked) && NoneForeign(codec, paths, old(host.files))
               && RunsSmoothly(old(host.tick))) ==> errs == []
      // A unit that is not there is no error; any other failure to disable one is.
      ensures !Tolerated(host.world(old(host.tick) + 1)) || !Tolerated(host.world(old(host.tick) + 2)) ==> errs != []
    {
      hide Foreign, OthersUntouched, Handled, NoneForeign, NoneLeft, NoneDangling, SameOwned, Removing,
           AutomationPaths.Sound, Tolerated;
      ghost var before := host.files;
      NothingWritten(paths, before);
      if Unready(false).Some? { return [Unready(false).value]; }
      var granted := Lock();
      if !granted { return [LockBusy]; }
      errs := UninstallLocked();
      host.automationLocked := false;
      if errs == [] { LeftIff(paths, before, host.files); }
    }

    // The part of Uninstall between taking and releasing the lock.
    method UninstallLocked() returns (errs: seq<Failure>)
      requires paths.Apart()
      modifies host`tick, host`files, host`commands
      ensures OthersUntouched(paths, old(host.files), host.files)
      ensures forall i | 0 <= i < 4 :: Handled(codec, paths, old(host.files), host.files, errs, paths.Owned()[i])
      ensures errs == [] ==>
                forall i | 0 <= i < 4 :: paths.Owned()[i] in host.files <==> DanglingAt(old(host.files), paths.Owned()[i])
      ensures OnlyForeignRefused(codec, paths, old(host.files), errs)
      ensures (NoneForeign(codec, paths, old(host.files)) && Tolerated(host.world(old(host.tick)))
               && Tolerated(host.world(old(host.tick) + 1)) && OkFrom(host.world, old(host.tick) + 2)) ==> errs == []
      ensures !Tolerated(host.world(old(host.tick))) || !Tolerated(host.world(old(host.tick) + 1)) ==> errs != []
      ensures host.commands == old(host.commands) + Removing()
      ensures host.tick > 0 && (!host.world(host.tick - 1).ok ==> errs != [])
    {
      hide Foreign, OthersUntouched, Handled, IsMissingUnitError, NoneForeign, RELOAD, DISABLE_TIMER, DISABLE_SERVICE, Undoing,
           Enabling, Removing, OnlyForeignRefused;
      ghost var before := host.files;
      CommandsAre(paths, before);
      var timer := Run(DISABLE_TIMER);
      var service := Run(DISABLE_SERVICE);
      errs := RemoveOwned(before);
      ghost var removal := errs;
      var reload := Run(RELOAD);
      if reload.Err? { errs := errs + [CommandFailed(reload.error)]; }
      if timer.Err? && !IsMissingUnitError(timer.error) { errs := errs + [CommandFailed(timer.error)]; }
      if service.Err? && !IsMissingUnitError(service.error) { errs := errs + [CommandFailed(service.error)]; }
      StillOnlyForeign(codec, paths, before, removal, errs);
      forall i | 0 <= i < 4
        ensures Handled(codec, paths, before, host.files, errs, paths.Owned()[i])
        ensures errs == [] ==> (paths.Owned()[i] in host.files <==> DanglingAt(before, paths.Owned()[i]))
      {
        HandledLater(codec, paths, before, host.files, removal, errs, paths.Owned()[i]);
      }
    }
  }

  lemma StillOnlyForeign(codec: Codec, paths: AutomationPaths, before: map<string, Node>, errs: seq<Failure>, more: seq<Failure>)
    requires OnlyForeignRefused(codec, paths, before, errs)
    requires forall f | f in more :: f in errs || f.CommandFailed?
    ensures OnlyForeignRefused(codec, paths, before, more)
  {
    hide Foreign;
  }

  lemma LeftIff(paths: AutomationPaths, before: map<string, Node>, after: map<string, Node>)
    requires forall i | 0 <= i < 4 :: paths.Owned()[i] in after <==> DanglingAt(before, paths.Owned()[i])
    ensures NoneLeft(paths, after) <==> NoneDangling(paths, before)
  {
    hide DanglingAt;
  }

  lemma RestoreFollows(before: map<string, Node>, h: State, file: FileSnapshot, world: nat -> Answer, t: nat)
    requires StraysFollow(before, h.strays, world)
    ensures StraysFollow(before, RestoreOwned(h, file, world(t)).strays, world)
  {
    hide StraysFollow, Leave, Chmod;
    LeaveFollows(before, h.strays, world, t);
  }

  // removeIfOwned as a function of the files, the answer to reading and the one to removing.
  function Removal(codec: Codec, paths: AutomationPaths, files: map<string, Node>, path: string, read: Answer, remove: Answer)
    : (map<string, Node>, Option<Failure>)
  {
    if !read.ok then (files, Some(InspectFailed(path)))
    else if NotFound(files, path) then (files, None)
    else if ReadThrough(files[path]).None? then (files, Some(InspectFailed(path)))
    else if !OwnsText(codec, path == paths.profile, ReadThrough(files[path]).value) then (files, Some(NotOwned(path)))
    else if !remove.ok then (files, Some(RemoveFailed(path)))
    else (files - {path}, None)
  }

  // A dangling link survives without an error, whoever put it there: reading it finds
  // nothing, which counts as already removed.
  lemma DanglingLinkStays(codec: Codec, paths: AutomationPaths, path: string, read: Answer, remove: Answer)
    requires read.ok
    ensures Removal(codec, paths, map[path := Dangling], path, read, remove) == (map[path := Dangling], None)
    ensures path in Removal(codec, paths, map[path := Dangling], path, read, remove).0
  {
  }

  // Further errors do not undo the handling of a file.
  lemma HandledLater(codec: Codec, paths: AutomationPaths, before: map<string, Node>, after: map<string, Node>,
                     errs: seq<Failure>, more: seq<Failure>, path: string)
    requires Handled(codec, paths, before, after, errs, path) && forall f | f in errs :: f in more
    ensures Handled(codec, paths, before, after, more, path)
    ensures more == [] ==> (path in after <==> DanglingAt(before, path))
  {
    hide Foreign;
  }

  // Removing one of the four leaves the handling of the ones before it, and the ones
  // after it as they were.
  lemma HandledElsewhere(codec: Codec, paths: AutomationPaths, before: map<string, Node>, a: map<string, Node>,
                         b: map<string, Node>, errs: seq<Failure>, more: seq<Failure>, i: nat)
    requires paths.Apart() && i < 4 && b - {paths.Owned()[i]} == a - {paths.Owned()[i]}
    requires forall k | 0 <= k < i :: Handled(codec, paths, before, a, errs, paths.Owned()[k])
    requires forall k | i <= k < 4 :: SameAt(before, a, paths.Owned()[k])
    requires forall f | f in errs :: f in more
    ensures forall k | 0 <= k < i :: Handled(codec, paths, before, b, more, paths.Owned()[k])
    ensures forall k | i < k < 4 :: SameAt(before, b, paths.Owned()[k])
  {
    hide Foreign;
    forall k | 0 <= k < 4 && k != i ensures SameAt(a, b, paths.Owned()[k]) {
      assert paths.Owned()[k] != paths.Owned()[i];
      assert paths.Owned()[k] in b <==> paths.Owned()[k] in b - {paths.Owned()[i]};
      assert paths.Owned()[k] in a <==> paths.Owned()[k] in a - {paths.Owned()[i]};
      if paths.Owned()[k] in a {
        assert b[paths.Owned()[k]] == (b - {paths.Owned()[i]})[paths.Owned()[k]];
        assert a[paths.Owned()[k]] == (a - {paths.Owned()[i]})[paths.Owned()[k]];
      }
    }
  }

  lemma OnlyThisPath(paths: AutomationPaths, a: map<string, Node>, b: map<string, Node>, path: string)
    requires path in paths.OwnedSet() && b - {path} == a - {path}
    ensures OneApart(paths, a, b)
  {
  }

  lemma RestoreIsAccounted(paths: AutomationPaths, before: map<string, Node>, contents: map<string, string>, h: State,
                           file: FileSnapshot, a: Answer, account: Account)
    requires file.path in paths.OwnedSet() && FileTaken(before, file.path, file)
    requires Intermediate(paths, before, contents, h.files) && Accounts(paths, before, contents, account)
    requires LastFiles(before, account.trail) == h.files
    ensures var files := RestoreOwned(h, file, a).files;
            && Intermediate(paths, before, contents, files) && LastFiles(before, account.trail + [files]) == files
            && Accounts(paths, before, contents, Account(account.tried, account.trail + [files]))
  {
    hide Intermediate, Chained, OneApart, FileTaken, Leave, Chmod, Reach, AutomationPaths.OwnedSet;
    var files := RestoreOwned(h, file, a).files;
    RestoreStaysInside(paths, before, contents, h, file, a);
    assert files - {file.path} == h.files - {file.path};
    OnlyThisPath(paths, h.files, files, file.path);
    ChainedNext(paths, before, account.trail, files);
  }

  // A death while a file is being restored, likewise.
  lemma DeathInsideRestore(paths: AutomationPaths, before: map<string, Node>, contents: map<string, string>, h: State,
                           file: FileSnapshot, job: AtomicFile.Job, replies: nat -> AtomicFile.Reply, t: nat, n: nat)
    requires Intermediate(paths, before, contents, h.files) && AtomicFile.FreshOn(job, h)
    requires file.path in paths.OwnedSet() && FileTaken(before, file.path, file) && file.present
    requires job.path == file.path && job.data == file.data && job.mode == Chmod(file.mode)
    ensures Intermediate(paths, before, contents, AtomicFile.After(job, h, replies, t, n).files)
  {
    hide AtomicFile.After, AtomicFile.Steps, Intermediate, FileTaken, Leave, Reach, Chmod, AutomationPaths.OwnedSet;
    AtomicFile.WriteIsOneOperation(job, h, replies, t, n);
    var a := AtomicFile.Summary(job, AtomicFile.Steps(job, h.files, h.dirs, replies, t, n), replies(t));
    RestoreStaysInside(paths, before, contents, h, file, a);
  }

  lemma RestoreStaysInside(paths: AutomationPaths, before: map<string, Node>, contents: map<string, string>, h: State,
                           file: FileSnapshot, a: Answer)
    requires file.path in paths.OwnedSet() && FileTaken(before, file.path, file)
    requires Intermediate(paths, before, contents, h.files)
    ensures Intermediate(paths, before, contents, RestoreOwned(h, file, a).files)
  {
    hide OthersUntouched, AutomationPaths.OwnedSet, Intermediate, Chmod, Leave, Reach, BackAt;
    var files := RestoreOwned(h, file, a).files;
    if a.ok {
      assert FileIs(files, file.path, file);
      RestoredIsBack(before, files, file.path, file);
      ChangedIsIntermediate(paths, before, contents, h.files, files, file.path);
    }
  }

  lemma IntermediateOthers(paths: AutomationPaths, before: map<string, Node>, contents: map<string, string>, files: map<string, Node>)
    requires Intermediate(paths, before, contents, files)
    ensures OthersUntouched(paths, before, files)
  {
  }

  // Restoring a file that was there needs no directory that was not.
  lemma RestoreReach(paths: AutomationPaths, before: map<string, Node>, start: set<string>, h: State, file: FileSnapshot,
                     i: nat, a: Answer)
    requires i < 4 && file.path == paths.Owned()[i] && FileTaken(before, file.path, file)
    requires start <= h.dirs <= start + AboveOwned(paths) && (Rooted(paths, before, start) ==> h.dirs == start)
    ensures var dirs := RestoreOwned(h, file, a).dirs;
            start <= dirs <= start + AboveOwned(paths) && (Rooted(paths, before, start) ==> dirs == start)
  {
    hide AboveOwned, Above, Reach, Chmod, Leave;
    OwnedReach(paths, file.path, a);
  }

  lemma StillRooted(paths: AutomationPaths, files: map<string, Node>, dirs: set<string>, more: set<string>)
    requires Rooted(paths, files, dirs) && dirs <= more
    ensures Rooted(paths, files, more)
  {
    hide Above;
  }

  // One write of Install, between two points of its account.
  lemma WriteIsAccounted(paths: AutomationPaths, before: map<string, Node>, contents: map<string, string>, h: State,
                         path: string, a: Answer, account: Account)
    requires path in paths.OwnedSet() && path in contents
    requires Intermediate(paths, before, contents, h.files) && Accounts(paths, before, contents, account)
    requires LastFiles(before, account.trail) == h.files
    ensures var files := PutFile(h, path, contents[path], 420, a).files;
            && Intermediate(paths, before, contents, files)
            && Accounts(paths, before, contents, Account(account.tried + [path], account.trail + [files]))
    ensures a.ok ==> Reach(path, a) == Above(path)
  {
    hide Intermediate, InBetween, Leave, Above, Chained, OneApart;
    var files := PutFile(h, path, contents[path], 420, a).files;
    assert OneApart(paths, h.files, files) by { OnlyThisPath(paths, h.files, files, path); }
    ChainedNext(paths, before, account.trail, files);
    if a.ok {
      WrittenIsInBetween(before, contents, files, path);
      ChangedIsIntermediate(paths, before, contents, h.files, files, path);
    }
  }

  lemma AllTried(paths: AutomationPaths, contents: map<string, string>, account: Account, dirs: set<string>)
    requires contents.Keys == paths.OwnedSet()
    requires forall path | path in contents :: path in account.tried && Above(path) <= dirs
    ensures AboveOwned(paths) <= dirs && account.tried != []
    ensures forall path | path in paths.OwnedSet() :: path in account.tried
  {
    hide Above;
    assert paths.profile in paths.OwnedSet();
    assert forall path | path in paths.OwnedSet() :: path in contents;
  }

  lemma {:induction false} CameIsAbove(paths: AutomationPaths, tried: seq<string>, world: nat -> Answer, t: nat)
    requires forall k | 0 <= k < |tried| :: tried[k] in paths.OwnedSet()
    ensures Came(tried, world, t) <= AboveOwned(paths)
  {
    hide Above, Reach, AutomationPaths.OwnedSet, AboveOwned;
    if tried != [] {
      CameIsAbove(paths, tried[..|tried| - 1], world, t);
      OwnedReach(paths, tried[|tried| - 1], world(t + |tried| - 1));
    }
  }

  lemma AccountIsAbove(paths: AutomationPaths, before: map<string, Node>, contents: map<string, string>, account: Account,
                       world: nat -> Answer, t: nat)
    requires Accounts(paths, before, contents, account)
    ensures Came(account.tried, world, t) <= AboveOwned(paths)
  {
    hide Intermediate, AutomationPaths.OwnedSet, AboveOwned;
    CameIsAbove(paths, account.tried, world, t);
  }

  lemma NothingCame(world: nat -> Answer, t: nat)
    ensures Came([], world, t) == {}
  {
  }

  lemma WrittenIsInBetween(before: map<string, Node>, contents: map<string, string>, files: map<string, Node>, path: string)
    requires path in contents && path in files && files[path] == Regular(420, contents[path])
    ensures InBetween(before, contents, files, path)
  {
    hide BackAt;
  }

  lemma NothingYet(before: map<string, Node>)
    ensures LastFiles(before, []) == before
  {
  }

  lemma NoAccount(paths: AutomationPaths, before: map<string, Node>, contents: map<string, string>)
    ensures Accounts(paths, before, contents, Account([], []))
  {
  }

  lemma TreeIsItself(paths: AutomationPaths, files: map<string, Node>, dirs: set<string>)
    ensures SameTree(paths, files, dirs, files, dirs)
  {
  }
}
