# A verified model of sshappy-tune

sshappy-tune changes thirteen kernel settings and two files on a Linux host, installs four
more files for systemd, and promises to be able to put everything back: after a failed
command, after the death of the process, and when several of its processes run at once.
This project models that machinery in Dafny and proves the promises.

## How the model is built

- **Text and numbers.** `Text.dfy`, `Decimal.dfy` and `Sorting.dfy` give the meaning of the Go
  library functions the tool leans on (`strings.Fields`, `TrimSpace`, `bufio` lines, decimal
  printing and parsing, `sort.Strings`), on ASCII characters. `Config.dfy` is the plan, the rendered file and its
  parser, `LineFeeds.dfy` says exactly which maps and roles survive that text form; `Recommend.dfy` is the sizing arithmetic in wrapping 64-bit integers,
  and `Tuning.dfy` says value by value what it recommends and what an Apply of it puts in force; `SnapshotId.dfy`
  is the time layout of identifiers and the trimming of the `latest` pointer; `Qdisc.dfy` reads `tc`.
- **One section.** `HostState.dfy` is the host: sysctls, files, stored snapshots, the `latest`
  pointer. `Engine.dfy` is one Apply or Rollback inside its lock, one command or file operation
  at a time; each operation takes the next *answer* of an arbitrary world: success or failure, what the kernel stored, the
  clock. A run may stop anywhere. `Gate.dfy` is what is tested before anything is captured, `EngineProofs.dfy` holds the invariant of
  every step, `Recovery.dfy` what follows from it, and `Progress.dfy` shows that Apply does
  succeed where nothing stands in its way. `AtomicFile.dfy` opens up the
  one operation "atomic write" into its system calls, `Deaths.dfy` lets a process die at any of
  them, and `Directories.dfy` follows the directories that writes make and nothing removes.
- **Many processes.** `Interleaving.dfy` runs any number of sections step by step, with deaths
  and with outside edits, under the non-blocking lock, and keeps the history of captured states.
- **The program.** `Manager.dfy`, `Reconcile.dfy`, `Installer.dfy` and `Service.dfy` are the
  imperative code: classes over a mutable `Host`, with the source's loops, early returns and
  compensation; `Units.dfy` is the text of the systemd units and what a reader finds in it. `Apply` and `Rollback` are proved to be runs of the engine, so what is proved about
  every run of the engine holds for them; the installer and the saga are proved against their own
  state comparisons.

## Assumptions

They appear as conditions in the statements, or in the definition of one operation.

- The two tuning files have different paths (`Distinct`), the four automation files have
  different paths (`Apart`), and the two groups do not overlap, nor is one of the six a lock file or
  inside the state directory (`Disjoint`). `SelfAcceptance` shows the first one is not only sufficient but necessary,
  and `UsualPathsFit` that the tool's own paths meet them all.
- Nothing is claimed about the two lock files, the state directory, what lies in it, and the
  directories above these: taking a lock and storing a snapshot create them. The frame statements
  exempt them by name (`ExemptPath`, `ExemptDir`), and `files` and `dirs` are about everything else.
- Paths are absolute and clean, so the directories above a path are its prefixes before a slash.
  A file that is there has the directories above it (`Rooted`, needed only for exact statements
  about directories). Nothing but the tool's own writes makes or removes directories during a section.
- The methods of `Manager`, `App`, `AutomationInstaller` and `Command` are proved for one process running
  alone. `ServiceInstall` holds no lock between reconciling and installing: with two such processes one
  may compensate the tuning on which the other's success rests. What survives interleaving is what
  `Interleaving.dfy` states about sections.
- A file operation that reports success did what it says, and one that reports failure left the
  target as it was, though it may leave its temporary file; `rename` is atomic. `AtomicFile.dfy`
  derives the second part for writes from the system calls.
- Temporary files have new names of their own. The host keeps them apart, as strays; the frame
  statements say that older strays stay and new ones may appear, and `LeftAtIff`, `StraysOfCallsIff` and
  `StraysOfDeathIff` say exactly when one does.
- A sysctl assignment may store any value, or none, whatever it reports. `sysctl -p` may change
  any key that some line of the loaded file assigns, and no other.
- `modprobe` changes which congestion controls are available and no managed sysctl.
- The operations of a lock holder and of outside editors interleave; outside editors never touch the snapshot store.
- Two sysctl values are the same when they have the same fields, because snapshots keep
  normalised values.
- The JSON codec reads back what it wrote (`RoundTrips`).

## Where the code does less than it may seem to promise

- The memory budget is `MemoryMB * MiB / 32` in 64-bit arithmetic. It equals the intended
  clamp exactly when `MemoryMB` is below 2^43 or the product wraps to a value that is again large
  (`CapExactIff`); at 2^43 it collapses to the minimum (`CapCollapses`). The bounds of 4 and 256 MiB
  hold always.
- Identifiers made by a clock beyond the year 9999 are refused by the tool's own pattern, so such
  a snapshot is stored but cannot be rolled back (`IdAcceptedIff`, `LatestLeadsBack`).
- If both tuning files are configured to the same path, every snapshot is refused by the tool's
  own test, and Apply can no longer undo itself (`SelfAcceptance`).
- Snapshots keep permission bits only. A restored file is the very same node exactly if its mode
  had no bit above them (`RestoredFileIff`, with a set-user-id file in `SetUserIdIsLost`); the same
  condition decides it for a failed Apply, a rollback, time travel, a failed Install and a failed
  service installation.
- A dangling symbolic link at one of the four automation paths survives an Uninstall that reports no
  error, because reading through it finds nothing (`DanglingLinkStays`). An error-free Uninstall
  leaves none of the four exactly if none of them was such a link. For the same reason a dangling
  link in place of the tuning file makes Verify fall back to the default expectations.
- A write makes the directories above its target and nothing ever removes them, so undoing does not.
  The first service installation on a host without the profile's directory leaves that directory there
  even if it fails at the units and undoes everything without an error
  (`FirstInstallLeavesItsDirectory`; `NewDirectoryStays` for a single file). The whole tree is as before
  exactly if the modes were plain and the directories above everything that it tried to write had been
  there (`TreeBackIff` for Install, `TreeIsBackIff` and `DirectoriesFollow` for the command, `DirsOfRun` and
  `SectionDirectories` for an Apply or Rollback).
- A write that fails after creating its temporary file and cannot remove it leaves it behind, and so
  does a death between creating it and the rename or removal. `LeftAtIff` gives the exact condition
  after every number of system calls; a run leaves one exactly if one of its writes failed twice
  (`StraysOfCallsIff`), and a run that dies, exactly if that happened or it died at such a call (`StraysOfDeathIff`).
- A line feed in a value or in the role usually breaks the text form: `LineFeeds.RoundTripIff` says
  exactly when it does not. It can also add an assignment nobody recommended (`LineBreakLeaks`,
  `RoleLineBreakLeaks`), in a plan that passes the tool's own test (`AllowedValueLeaks`), and then Apply
  may set a sysctl that is none of the thirteen (`LeakyPlanBreaksFrame`). `AssignsItsKeysIff` says exactly when
  the file assigns a further key, and `FramedIff` that Apply stays inside its frame exactly if none of
  those lies outside the allowlist or the host cannot be captured anyway. Plans made from
  recommendations are safe: these never hold a line feed (`RecommendationRoundTrip`).
- With several root lines of different kinds, the order of `tc`'s output decides the root kind
  (`OrderMattersIff`).
- The repository's README says a failed service installation brings the files back. It does so
  when the restore reports no error, and it does not restore the previous enablement of units.

## Model

| member | source | states |
|---|---|---|
| Text.NormalizeCanonical | internal/manage/config.go:115-117 | normalising is idempotent, and two strings normalise alike exactly when they have the same fields |
| Text.FieldsOfTrim | internal/manage/manager.go:342-349 | trimming a command's output loses no word, so the test for `bbr` sees what the command printed |
| Text.SeparatorsAre | internal/manage/config.go:115-117 | between two words, exactly the six white-space characters separate; any other joins them into one |
| Decimal.ParseOfFormat | internal/tune/recommend.go:76-81 | a printed 64-bit number parses back to itself, negative ones included |
| Decimal.ParseIntIff | internal/tune/recommend.go:127-133 | a text parses to a number exactly if it is digits after at most one sign, with that value, and an int64 holds it |
| Sorting.CollectSortedKeys | internal/manage/config.go:106-113 | whatever order a map is ranged over in, the result is the one sorted list of its keys |
| Sorting.SortedKeysDistinct | internal/manage/config.go:106-113 | that list is sorted byte-wise and names no key twice |
| Recommend.SaturatingProduct | internal/tune/recommend.go:109-118 | the loop returns the smaller of the largest int64 and the true product, for every sequence of positive factors, and an int64 always |
| Recommend.Sizes | internal/tune/recommend.go:53-70 | the reassignments compute the bandwidth-delay product, target, cap, maximum and reason of the formulas over unbounded integers (the cap with its wrap-around) |
| Recommend.Recommend | internal/tune/recommend.go:36-107 | the recommendation or refusal is the reference function's for every profile and input, with all error cases; what that recommends is stated by the Tuning lemmas |
| Recommend.WrappedCap | internal/tune/recommend.go:58-63 | the clamped, truncating, wrapping product equals the closed form the other statements use |
| Recommend.CapExactIff | internal/tune/recommend.go:58-63 | the cap is clamp(RAM/32) if and only if the 64-bit product keeps its meaning; it lies within 4 and 256 MiB always |
| Recommend.CapCollapses | internal/tune/recommend.go:58-63 | a concrete memory size at which wrapping turns the largest cap into the smallest |
| Recommend.BufferFormula | internal/tune/recommend.go:53-71 | below 2^43 MB the maximum is min(max(2 BDP + 2 MiB, 4 MiB), clamp(RAM/32)) |
| Recommend.BufferMonotone | internal/tune/recommend.go:53-71 | there it is monotone in bandwidth, round-trip time and memory together |
| Recommend.MaxParsedFixpoint | internal/tune/recommend.go:127-133 | never below the minimum or a current value that parses, and stable under printing and parsing |
| Tuning.RecommendedIff | internal/tune/recommend.go:36-51 | exactly which bandwidths, round-trip times, roles and memory sizes are refused |
| Tuning.SwitchesRecommended | internal/tune/recommend.go:74-88 | every recommendation names the thirteen sysctls, with fq as queueing discipline, bbr as congestion control and the five switches as literals |
| Tuning.BuffersRecommended | internal/tune/recommend.go:74-88 | both limits parse to the buffer maximum, which also is the last and largest of the three numbers of either socket buffer, after the fixed smallest and initial sizes |
| Tuning.BacklogsRecommended | internal/tune/recommend.go:72-81 | either backlog parses to the current value or to 8192, whichever is larger |
| Tuning.RecommendationRecords | internal/tune/recommend.go:53-106 | the recorded input, memory, bandwidth-delay product, target, cap, maximum and reason, and exactly when each warning is given |
| Tuning.AppliedIsTuned | internal/manage/manager.go:126-151 | an error-free Apply of a recommended plan leaves congestion control bbr, queueing discipline fq and the switches in force, and both files, with mode 0644, saying so |
| Config.AllowlistTestIff | internal/manage/config.go:119-133 | equal size and membership amount to exactly the thirteen keys |
| Config.BuildPlan | internal/manage/config.go:42-63 | the plan records, per key, current and recommended normalised values, whether they differ, and the rendered file, for every iteration order |
| Config.PlanIs | internal/manage/config.go:42-63 | per key the current value, the recommended one, and that they differ up to white space, each in its place |
| Config.RenderSysctl | internal/manage/config.go:65-79 | equal recommendations give byte-identical files |
| Config.ParseSysctlConfig | internal/manage/config.go:81-104 | the line loop computes the specified parse, with its malformed lines |
| Config.ParseLineIff | internal/manage/config.go:81-104 | exactly which lines are skipped, refused, or give a key its value, in terms of the text around the first equals sign |
| Config.RoundTrip | internal/manage/config.go:65-104 | parsing a rendered file succeeds and gives back the map, normalised |
| LineFeeds.RoundTripIff | internal/manage/config.go:65-104 | for every map and role, line feeds included: parsing gives the map back exactly if every key is usable, every value is on its first line, and the role adds only lines that are skipped or assign a key of the map |
| LineFeeds.OneLineRoleIsHarmless | internal/manage/config.go:69-74 | a role without a line feed always meets the last condition |
| LineFeeds.SecondLineNames | internal/manage/config.go:68-74 | the words of the second line are the role, the bandwidth, the round-trip time and the memory, in this order and under these names |
| LineFeeds.TrailingLineFeedComesBack | internal/manage/config.go:75-77 | a value with a trailing line feed still comes back |
| LineFeeds.RoleLineBreakLeaks | internal/manage/config.go:69-74 | a second line in the role becomes an assignment of the file, and the round trip fails |
| LineFeeds.AssignsItsKeysIff | internal/manage/config.go:65-79 | for every map with usable keys and every role, line feeds included: loading the rendered file can assign all keys of the map, and no other exactly if neither the role nor a value adds a line that assigns one |
| LineFeeds.AllowedValueLeaks | internal/manage/config.go:65-79 | a map of the thirteen keys that passes the allowlist test and whose file assigns a sysctl outside it |
| Config.LineBreakLeaks | internal/manage/config.go:75-77 | a line feed in a value makes the file assign a further key |
| Config.RecommendationRoundTrip | internal/tune/recommend.go:74-88 | every recommendation covers the allowlist, qualifies for the round trip, comes back exactly and assigns no other key |
| SnapshotId.IdAcceptedIff | internal/manage/snapshot.go:73-75 | identifiers the tool makes match its own pattern exactly up to the year 9999 |
| SnapshotId.AcceptedIffPrinted | internal/manage/snapshot.go:73-75 | the pattern admits exactly the texts that some time up to the year 9999 prints |
| SnapshotId.IdLayout | internal/manage/manager.go:209-213 | which digits are year, month, day, hour, minute, second and nanoseconds |
| SnapshotId.FormatIdInjective | internal/manage/manager.go:210-213 | different clock readings give different identifiers |
| SnapshotId.StringTrimSpace | internal/manage/snapshot.go:129-139 | the two index loops compute the trimmed text |
| SnapshotId.TrimEdgesShape | internal/manage/snapshot.go:129-139 | what stays is the stretch between the first and the last character that is no blank, tab or line break |
| SnapshotId.LatestRoundTrip | internal/manage/snapshot.go:62-71 | the pointer, written with a line feed and read trimmed, gives back the identifier |
| HostState.VerifyMaps | internal/manage/manager.go:294-310 | OK exactly when every expected key has its value up to white space; one check per key, in key order |
| HostState.ComparedIs | internal/manage/manager.go:294-310 | one entry per expected key, sorted, each with what was expected and what was found; OK exactly if these agree throughout |
| HostState.SnapshotTestIff | internal/manage/manager.go:263-280 | the snapshot test means: different paths, exactly the thirteen keys, exactly the two files under their own paths |
| HostState.RestoredFileIff | internal/manage/snapshot.go:31-98 | a captured and restored file has its existence, bytes and permission bits back, and is the very same node exactly if its mode had no bit above them |
| HostState.SetUserIdIsLost | internal/manage/snapshot.go:46-97 | a set-user-id file comes back without that bit |
| HostState.NewDirectoryStays | internal/manage/snapshot.go:90-103 | removing a new file again leaves the directory that was made for it |
| HostState.AgreementIsState | internal/manage/manager.go:209-261 | a host restored from a snapshot has the managed sysctls and the two files of the host it was taken of, the very same nodes exactly if their modes were plain |
| AtomicFile.AlwaysOldOrNew | internal/manage/snapshot.go:100-127 | whatever any of the system calls answers and wherever the process dies, the target holds its old self or the complete new bytes and mode, and no other file differs but the temporary one; what becomes of directories is DirectoriesAt |
| AtomicFile.WriteIsOneOperation | internal/manage/snapshot.go:100-127 | at every system call the whole host, directories and temporary files included, is as one operation of the engine leaves it |
| AtomicFile.FlushedBeforeRename | internal/manage/snapshot.go:111-127 | a write that has changed its target has made all seven calls, and flushed the complete file before renaming it |
| AtomicFile.DirectoriesAt | internal/manage/snapshot.go:100-103 | at every call the directories are those before and, from the first call on, the ones above the target as far as it got |
| AtomicFile.DirectoriesSameIff | internal/manage/snapshot.go:100-103 | so a write leaves the directories as they were exactly if those it came to had been there |
| AtomicFile.LeftAtIff | internal/manage/snapshot.go:100-127 | after every number of system calls, so wherever the process dies, the temporary file is there exactly on a condition on which calls succeeded |
| AtomicFile.LeftBehindIff | internal/manage/snapshot.go:105-126 | a write that has returned left its temporary file exactly if it failed after creating it and the deferred removal failed too |
| AtomicFile.Disk.AtomicWrite | internal/manage/snapshot.go:100-127 | the body with its deferred removal: the files are the old ones with the target replaced, or the old ones and at most the temporary file, which is left exactly if a failed write cannot remove it; the directories are the old ones and those it came to |
| EngineProofs.StepKeepsInv | internal/manage/manager.go:110-151 | every single operation of Apply and Rollback, under every answer, keeps the section invariant |
| EngineProofs.ExecKeepsInv | internal/manage/manager.go:94-261 | so does every run, complete or cut short |
| EngineProofs.CapturedNow | internal/manage/manager.go:209-233 | what capture assembles is an acceptable snapshot that agrees with the host it was taken from |
| EngineProofs.ReadingsMeet | internal/manage/manager.go:282-310 | passing verification on normalised readings means the host itself has the values |
| Gate.NothingWithoutBbr | internal/manage/manager.go:110-116 | whatever else the world answers: if the module does not load, the controls cannot be read or bbr is not among them, no step of an Apply captures, stores or writes anything, and the report says which |
| Gate.BbrLetsIn | internal/manage/manager.go:110-118 | otherwise it goes on |
| Gate.SnapshotNamesClock | internal/manage/manager.go:209-214 | every snapshot and every reported identifier is named after the clock read at that point |
| Gate.ErrorFreeSection | internal/manage/manager.go:94-207 | an Apply or Rollback reports no error only if not one operation up to its end failed |
| Recovery.ApplyAllOrNothing | internal/manage/manager.go:94-152 | for every kernel and fault schedule: no error means every key reads back and both files hold the planned bytes; an error without a restore error means everything managed is put back, the nodes identical exactly if no snapshot was reached or the modes were plain |
| Recovery.RollbackRestores | internal/manage/manager.go:190-261 | an error-free rollback leaves the host as the snapshot it names describes, and the store untouched |
| Recovery.RollbackRestoresNodesIff | internal/manage/manager.go:190-261 | so it brings back the host the snapshot was taken of, its two files as the very same nodes exactly if their modes were plain |
| Recovery.RecoverableThroughout | internal/manage/manager.go:118-137 | at every point of Apply nothing has changed yet, or `latest` names a complete stored record of the host as it was |
| Deaths.CutIsAnAnswer | internal/manage/snapshot.go:49-127 | whatever system call a process dies at or returns from, the whole host, directories included, is as one answer to the operation leaves it, a success exactly if the rename has happened |
| Deaths.DeathRecovery | internal/manage/manager.go:118-207 | after a death at any system call of an Apply the host is untouched, or an error-free rollback of the latest snapshot undoes the Apply |
| Deaths.DeathIsFramed | internal/manage/manager.go:94-261 | such a death leaves nothing outside the frame of RunsAreFramed |
| Deaths.DeathInsideIsTwoEvents | internal/manage/manager.go:94-207 | among many processes, dying inside an operation is acting once more and dying, so every statement over all events covers it |
| Deaths.WriteAheadAtEveryCall | internal/manage/manager.go:118-137 | write-ahead at every system call of every interleaved run: nothing has changed, or `latest` names a complete record of the host at lock time |
| Recovery.LatestLeadsBack | internal/manage/snapshot.go:49-88 | the pointer of a durable snapshot denotes it, and it is readable exactly up to the year 9999 |
| Recovery.SelfAcceptance | internal/manage/manager.go:263-280 | snapshots about to be stored pass the tool's own test if and only if the two paths differ |
| Recovery.RestoreIsBestEffort | internal/manage/manager.go:239-251 | for every set of failing items, every other item is restored and exactly the failing ones are reported |
| Recovery.RestoreSucceeds | internal/manage/manager.go:235-261 | with a cooperating host a restore ends without error in the snapshot's state |
| Recovery.RollbackUndoes | internal/manage/manager.go:190-207 | wherever such a record is durable under an accepted identifier, a rollback without identifier on a cooperating host does end without error, in the state before |
| Recovery.RollbackSucceeds | internal/manage/manager.go:190-207 | asked for a readable and acceptable record, by its identifier or without one as the latest, a rollback on a cooperating host ends without error in its state |
| Progress.ApplySucceeds | internal/manage/manager.go:110-151 | where every operation succeeds and the kernel stores what the file says, Apply does end without error, with everything applied |
| Progress.ObligedReportIsClean | internal/manage/manager.go:94-152 | every report a finished Apply can give there is without error |
| Progress.FramedIff | internal/manage/manager.go:101-135 | for every plan that passes the allowlist test and every host: no run of Apply leaves the frame exactly if its file assigns no key outside the allowlist or the host cannot be captured |
| Progress.RenderedPlanFramedIff | internal/manage/config.go:42-79 | for the plan of a recommendation, the same in terms of the lines that its values and role add |
| Progress.LeakyPlanBreaksFrame | internal/manage/manager.go:101-135 | an input: thirteen values, one with a second line; Apply accepts the plan and on some kernel sets a foreign sysctl |
| Recovery.RunsAreFramed | internal/manage/manager.go:94-261 | for every plan whose file assigns no foreign key: no run assigns a sysctl outside the allowlist or touches a file outside the two paths, save new directories above these, temporary files, and what is exempt by name |
| Deaths.CutLeavesIff | internal/manage/snapshot.go:100-127 | a process that dies inside any write of a section, or returns from it, leaves a temporary file exactly on the condition of LeftAtIff |
| Deaths.CutDirectoriesIff | internal/manage/snapshot.go:100-103 | and it leaves the directories as they were exactly if it made no call or those the first call came to had been there |
| Deaths.StraysOfCallsIff | internal/manage/snapshot.go:100-127 | a run whose writes were carried out by system calls has left a temporary file exactly if, in one of them, a call after its creation failed and so did the removal |
| Deaths.StraysOfDeathIff | internal/manage/snapshot.go:100-127 | a run that dies inside a write, exactly if that happened before or the write was at a call where the file is there |
| Directories.DirsOfRun | internal/manage/snapshot.go:100-103 | a run adds exactly the directories its writes came to, so none exactly if all of those had been there |
| Directories.SectionDirectories | internal/manage/manager.go:126-151 | what a finished section tells: directories are only added, only above the two files, all of those once both files are written, none if it failed before writing |
| Directories.DirectoryIsAbove | internal/manage/snapshot.go:101 | the directory of a file is among those above it |
| Interleaving.MutualExclusion | internal/manage/manager.go:322-340 | in every interleaving a process is in its section exactly when it holds the lock |
| Interleaving.SectionInvariant | internal/manage/manager.go:104-151 | the section holding the lock keeps its invariant while nobody edits the host, whatever the others do |
| Interleaving.RecordsHold | internal/manage/manager.go:118-124 | always: every stored snapshot is acceptable, every undisturbed one is a consistent cut at lock time, and the store holds the last one recorded under each identifier |
| Interleaving.LatestNeverDangles | internal/manage/snapshot.go:49-88 | from a host without a pointer or with one to an acceptable record, `latest` only ever names a stored record that passes the test, readable exactly if its identifier fits the pattern, for one written by a run exactly up to the year 9999 |
| Interleaving.TimeTravel | internal/manage/manager.go:190-260 | after any history, an error-free rollback to the k-th snapshot leaves the host as the k-th snapshot says; if nobody edited the host during the k-th capture, that is everything managed as it was when the k-th Apply took the lock, the nodes identical exactly if their modes were plain |
| Interleaving.DistinctClocksKeepEveryRecord | internal/manage/manager.go:210-213 | if the captures read different clocks, every snapshot ever stored is still in the store after every run |
| Interleaving.WriteAheadAlways | internal/manage/manager.go:118-137 | the write-ahead property at every moment of every interleaved run |
| Interleaving.Serialisability | internal/manage/manager.go:104-206 | with edits only while the lock is free, the host is what running the sections one by one in lock order gives, and every finished process got the report its section gives there, stale plans included |
| Interleaving.AloneIsExec | internal/manage/manager.go:94-207 | a section of that serial order is an ordinary run of the engine |
| Manage.Host.SysctlLoad | internal/manage/manager.go:133-135 | loading a file may set the keys its lines assign to any value and changes nothing else |
| Manage.Host.RestoreFile | internal/manage/snapshot.go:90-98 | removes a file that was absent, rewrites one that was present |
| Manage.Host.CaptureFile | internal/manage/snapshot.go:31-47 | absent, regular with permission bits, or refused |
| Manage.Manager.CaptureSnapshot | internal/manage/manager.go:209-233 | the key loop and the two captures are the engine's capture, failing at the same item |
| Manage.Manager.VerifyExpected | internal/manage/manager.go:282-292 | the read-back loop is the engine's verification in Apply and in restore |
| Manage.Manager.RestoreSnapshot | internal/manage/manager.go:235-261 | the two best-effort loops and the final check are the engine's restore, with the same errors |
| Manage.Manager.ReadSnapshot | internal/manage/snapshot.go:65-88 | reads through the trimmed pointer when no identifier is given; every refusal is the engine's |
| Manage.Manager.ApplyLocked | internal/manage/manager.go:110-124 | from the module to the durable snapshot, the engine's run |
| Manage.Manager.WriteSnapshot | internal/manage/snapshot.go:49-63 | the record, then the pointer: the engine's two steps with their failures |
| Manage.Manager.Commit | internal/manage/manager.go:126-151 | from the first file write to verification or undo, the engine's run |
| Manage.Manager.Apply | internal/manage/manager.go:94-152 | refused with nothing touched for missing paths, another user, a plan off the allowlist or a busy lock; without bbr on offer nothing is captured, stored or written; otherwise exactly one engine section: all-or-nothing, with the verification of the host it leaves, its snapshot named by the clock, framed where its file assigns no foreign key, directories as SectionDirectories says, temporary files only where a write leaves one; the lock is as before on every path |
| Manage.Manager.Rollback | internal/manage/manager.go:190-207 | refused with nothing touched, or exactly one engine section with its outcome; asked for a readable and acceptable record, by identifier or as the latest, it does return to it on a cooperating host; framed; directories only added above the two files; the lock is as before |
| Qdiscs.SplitJoin | internal/host/detect.go:122 | joined lines split back into themselves |
| Qdiscs.ParseQdisc | internal/host/detect.go:120-148 | the loops compute the first root kind, the sorted leaf kinds and readiness of the specification |
| Qdiscs.ReadyIff | internal/host/detect.go:136-146 | ready exactly when the root kind is fq, or it is mq, there is a leaf line, and the second word of every leaf line is fq |
| Qdiscs.OrderMattersIff | internal/host/detect.go:127-134 | the reading survives every reordering of the lines if and only if the root lines agree on the kind |
| Qdiscs.OnlyRelevantLinesMatter | internal/host/detect.go:127-134 | outputs that differ in order and in any number of ingress, clsact or `ffff:` lines are read alike |
| Qdiscs.FindFieldAfter | internal/host/detect.go:224-231 | the index loop returns the field after the first occurrence |
| Qdiscs.FieldAfterIff | internal/host/detect.go:224-231 | which is the one after the first occurrence |
| Qdiscs.PlaysIff | internal/host/detect.go:122-134 | in terms of their words, exactly which lines are root lines and which are leaf lines |
| Qdiscs.RootKindIff | internal/host/detect.go:127-130 | the root kind is the second word of the first root line |
| Reconcile.Detector.Detect | internal/host/detect.go:28-73 | the readable inspected keys normalised, the available congestion controls and readiness, in every iteration order |
| Reconcile.DetectedIs | internal/host/detect.go:28-73 | detection reads exactly the managed keys that are there and can be inspected, the available controls word by word, memory, speed and readiness |
| Reconcile.FileDrift | internal/manage/manager.go:351-370 | missing, different, in place, or not inspectable |
| Reconcile.ReasonsEmptyIff | internal/manage/manager.go:75-91 | a reason is given exactly when a key or a byte of a file differs |
| Reconcile.ReasonsNameKeys | internal/manage/manager.go:75-80 | and a reason names a key exactly if it drifted |
| Reconcile.NeedsApply | internal/manage/manager.go:68-92 | answers exactly when it can inspect both files; the answer is exactly the drift there is |
| Reconcile.Verify | internal/manage/manager.go:154-188 | answers exactly when reading finds no file or one that parses; the verdict is one check per expected key, one more if bbr is unavailable, and the qdisc warning |
| Reconcile.VerdictIs | internal/manage/manager.go:176-187 | the verdict lists every expected key, has the one further entry exactly if bbr is unavailable, and warns exactly if pacing is not ready |
| Reconcile.DefaultVerdictIff | internal/manage/manager.go:159-175 | with no file to go by it is good exactly if the readings are fq, bbr, 3, 1 and 1 and bbr is available |
| Reconcile.DefaultsAreRecommended | internal/manage/manager.go:159-165 | what is expected by default is what every recommendation asks for |
| Reconcile.NoDriftIff | internal/manage/manager.go:68-92 | no drift against a fresh plan means exactly that the keys read back and both files hold the bytes |
| Reconcile.NoDriftAgreesWithVerify | internal/manage/manager.go:154-187 | without drift, verification re-parses the file to exactly the recommended map, and every key meets it |
| Reconcile.PlanInPlaceIsStable | internal/tune/recommend.go:72-77 | once a plan is in place, the host recomputes the same recommendation and bytes and sees no drift |
| Reconcile.SettledIsInspectable | internal/manage/manager.go:68-92 | on a settled host the drift check and verification cannot be refused |
| Reconcile.SettledIsTuned | internal/manage/manager.go:68-92 | a settled host has fq, bbr and the switches in force and both files in place |
| Reconcile.PlansLoadTheirKeys | internal/manage/config.go:42-79 | the file of a plan made from a recommendation assigns all its keys and none outside the allowlist |
| Reconcile.App.ReconcileInput | internal/cli/cli.go:264-284 | success on a fully readable host leaves it settled; a settled host is not touched and gets no snapshot; found drift runs exactly one Apply of the plan, passes its report on, and succeeds where nothing fails and the kernel obliges; a change is recorded; without drift or before Apply nothing is touched; failure without restore error changes nothing managed; the drift found and the verdict without drift are those of NeedsApply and Verify |
| Reconcile.App.ApplyDrift | internal/cli/cli.go:279-283 | the report of Apply is passed on, with its record and its all-or-nothing outcome |
| Installer.UnitsAreOwned | internal/automation/installer.go:304-359 | every rendered unit carries the marker, whatever the binary path |
| Units.ApplyUnitReconciles | internal/automation/installer.go:304-324 | read line by line, the only command of the apply unit is the binary with `reconcile --confirm`, and it is wanted at boot |
| Units.VerifyUnitVerifies | internal/automation/installer.go:326-342 | the only command of the verify unit is the binary with `verify`, and nothing but the timer wants it |
| Units.TimerStartsVerification | internal/automation/installer.go:344-359 | the timer starts the verify service every six hours |
| Installer.OwnedTextIff | internal/automation/installer.go:197-215 | a unit is the tool's exactly if the marker occurs in it, a profile exactly if it decodes and names the tool |
| Installer.MissingUnitIff | internal/automation/installer.go:275-278 | exactly which messages, in letters of either case, count as a missing unit |
| Installer.InstalledIsOwned | internal/automation/installer.go:256-273 | everything Install writes passes the ownership test |
| Installer.InstalledIsNeverRefused | internal/automation/installer.go:108-135 | Install followed by Uninstall is never refused on ownership |
| Installer.DanglingLinkStays | internal/automation/installer.go:256-263 | removing a dangling link reports success and leaves it there |
| Installer.AllBackIff | internal/automation/io.go:16-45 | an error-free restore brings the four files back, and all files exactly if none of their modes had a bit above the permissions |
| Installer.TreeBackIff | internal/automation/io.go:47-51 | and the whole tree, directories included, exactly if also the directories that the writes came to had been there |
| Installer.FirstInstallLeavesItsDirectory | internal/automation/installer.go:92-99 | an input: a first installation that fails at the units and is undone without error leaves the profile's new directory |
| Installer.IntermediateIsReplaceable | internal/automation/installer.go:256-273 | at every point between two operations of Install, no file stands in the way of another Install or an Uninstall |
| Installer.DeathInsideWrite | internal/automation/io.go:47-74 | at every system call of a write of Install, too, each file is old, restored or complete, so the same holds wherever it dies |
| Installer.DeathInsideRestore | internal/automation/io.go:37-45 | likewise at every system call of a restore |
| Installer.AutomationInstaller.CaptureOwnedFile | internal/automation/io.go:16-35 | succeeds exactly when the path is inspectable and absent or a regular file of the tool's; the backup agrees with the file |
| Installer.AutomationInstaller.Capture | internal/automation/installer.go:197-215 | four agreeing backups in order, exactly if all four can be inspected and replaced; changes nothing |
| Installer.AutomationInstaller.PreflightInstall | internal/automation/installer.go:57-66 | passes exactly if the installer is ready, the profile is the tool's and all four files can be inspected and replaced; writes nothing |
| Installer.AutomationInstaller.RestoreOwnedFiles | internal/automation/installer.go:246-254 | best effort: each file is back or reported |
| Installer.AutomationInstaller.RestoreInstall | internal/automation/installer.go:217-227 | best effort around the unit commands; without error exactly if the four files and the reload succeed, whatever the disable commands answer |
| Installer.AutomationInstaller.WriteAll | internal/automation/installer.go:92-96 | for every iteration order, success means all four contents are in place |
| Installer.AutomationInstaller.EnableUnits | internal/automation/installer.go:97-105 | succeeds exactly when the three commands do |
| Installer.AutomationInstaller.Install | internal/automation/installer.go:68-106 | transactional for every order and failure point: all four files, of which the apply unit reconciles, the verify unit verifies, the timer starts it and the profile decodes to the one given, and systemd reloaded and both units enabled, or each back or reported; without such a report all files as before exactly if nothing was restored or the modes were plain, and the whole tree exactly if also the directories that its writes came to had been there; directories are only added, all those above the four files once they are written; at every point between two operations each file is old, restored or complete; a missing precondition, a foreign or an irregular file stops it before any write; succeeds when nothing fails |
| Installer.AutomationInstaller.RemoveIfOwned | internal/automation/installer.go:256-273 | a foreign file is kept and refused, one of the tool's is gone or its failure reported, one that reading does not find is left as it is |
| Installer.AutomationInstaller.RemoveOwned | internal/automation/installer.go:118-123 | every file is handled, whichever others fail; only foreign ones are refused |
| Installer.AutomationInstaller.Uninstall | internal/automation/installer.go:108-135 | after three commands, whatever mix is present: every file of the tool's is gone or reported, no foreign one is touched; without an error exactly the dangling links are left, so none of the four exactly if none was one; a missing unit is no error, any other failure to disable one is; no error arises when nothing else fails and nothing is foreign |
| Service.Compensated | internal/cli/cli.go:318-323 | restoring the four files and rolling back the reconcile's own snapshot gives the managed state and files before the command, all files identical exactly if nothing restored had a special mode |
| Service.ReconcileUndone | internal/cli/cli.go:314-317 | a reconcile that failed and put the managed state back needs no compensation of files or sysctls |
| Service.InstallUndone | internal/cli/cli.go:318-323 | after a reconcile that changed nothing, restoring the four files is enough |
| Service.TreeIsBackIff | internal/cli/cli.go:314-323 | the whole tree is as before exactly if the files are and the directories that the command's writes came to had been there |
| Service.StillSettled | internal/cli/cli.go:314-330 | installing the automation does not unsettle the host |
| Service.UsualPathsFit | internal/manage/manager.go:24-31 | the tool's own ten paths are sound, different and apart from the lock files and the state directory |
| Service.NewProfileIs | internal/automation/profile.go:24-29 | the profile carries the input as it was asked for, a missing role read as proxy |
| Service.ConfinedAcross | internal/cli/cli.go:302-331 | no sysctl assignment or file operation of the tool reaches beyond the thirteen sysctls and the six files, save new directories above these, temporary files, and what is exempt by name |
| Service.Command.InstallOrCompensate | internal/cli/cli.go:318-324 | a rollback is issued exactly for a change, for that change's snapshot; clean undoing leaves files and sysctls as before; directories are the ones before and those that Install's writes came to |
| Service.Command.ServiceInstall | internal/cli/cli.go:302-331 | for a process running alone: without confirmation, or where Install would refuse, nothing is touched and no reconcile run; success settles the host for the input asked for and leaves units and profile that say so, and is reached from a settled and from a drifted host where nothing fails; failure with error-free undoing leaves sysctls, tuning files and automation files as before the command, all files identical exactly if nothing restored had a special mode, the whole tree exactly if also the directories above everything it tried to write had been there; no file operation of the tool goes beyond them |

## Left out

- Interleaving.Serialisability: says nothing about runs in which somebody edits the host while a section holds the lock, because the lock does not bind outside editors.
- Service.Command.ServiceInstall: says nothing about other processes that run between its two transactions, because it holds no lock there and their edits may undo its own.
- Config.BuildPlan: leaves out the plan's list of actions, a constant text for display.
- Reconcile.Detector.Detect: leaves out kernel, architecture, interface and queue fields and the warnings, which nothing modelled reads.
- Reconcile.Verify: does not carry over the profile's own warnings, which depend on detection details outside the model.
- Running processes: `Runner.Run`, contexts and cancellation are the arbitrary answers; a cancelled context is a schedule in which every later call fails.
- JSON encoding of snapshots, profiles and `--json` output: an abstract codec that round-trips; a snapshot is stored as one value, and the empty directory left by a death before its file is not modelled.
- The `createdAt` field, and years before the year 0.
- Flag parsing, usage text, printing, `main.go`, the version package and `install.sh`.
- Reading memory, link speed and the default interface: parameters of the detector.
- Power-loss durability: only process death is modelled, with `rename` as the commit point.
- Whether units were enabled before `service install`: the commands are recorded in order, their effect on systemd is not modelled.
- File ownership, and the checks of the installed binary as a file: one boolean of the installer.
- Unicode white space, invalid UTF-8 and lines beyond the scanner's limit: texts are ASCII lines within the limit.
- Network namespaces (`InspectNetworkNamespace`), `service status` and the read-only commands are not modelled.
