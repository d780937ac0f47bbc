/**
 Detection, drift, verification and reconciliation: when the tool decides that
 nothing needs doing, and why one reconcile is enough.
 */
module Reconcile {
  import opened Wrappers
  import opened Text
  import opened Decimal
  import opened Sorting
  import opened Recommend
  import opened Config
  import opened HostState
  import opened Engine
  import opened EngineProofs
  import opened Recovery
  import opened Progress
  import opened Tuning
  import opened Directories
  import opened Manage
  import Qdiscs

  const AVAILABLE_KEY := "net.ipv4.tcp_available_congestion_control"

  // What detection finds besides the sysctls: memory, link speed, and what tc printed, if it ran.
  datatype Machine = Machine(memoryMB: int, interfaceSpeedMbps: int, qdisc: Option<string>) {
    predicate FqReady() { qdisc.Some? && Qdiscs.Ready(Qdiscs.Split(qdisc.value)) }
  }

  // ---------- detection ----------

  function Readings(h: State, hidden: set<string>, keys: set<string>): Values {
    map key | key in keys && key in h.sysctls && key !in hidden :: Normalize(h.sysctls[key])
  }

  // The inspected keys are the managed ones and the available congestion controls.
  function Inspected(h: State, hidden: set<string>): Values {
    var managed := Readings(h, hidden, MANAGED_SYSCTLS);
    if AVAILABLE_KEY in hidden then managed else managed[AVAILABLE_KEY := Normalize(h.available)]
  }

  function ProfileOf(h: State, machine: Machine, hidden: set<string>): Profile {
    var sysctls := Inspected(h, hidden);
    Profile(machine.memoryMB, machine.interfaceSpeedMbps, sysctls, Fields(Lookup(sysctls, AVAILABLE_KEY)), machine.FqReady())
  }

  // Detection reads exactly the managed keys that are there and can be inspected, and the
  // available congestion controls, word by word.
  lemma DetectedIs(h: State, machine: Machine, hidden: set<string>)
    ensures var p := ProfileOf(h, machine, hidden);
            && p.memoryMB == machine.memoryMB && p.interfaceSpeedMbps == machine.interfaceSpeedMbps
            && (p.fqReady <==> machine.qdisc.Some? && Qdiscs.Ready(Qdiscs.Split(machine.qdisc.value)))
            && (forall key | key in MANAGED_SYSCTLS ::
                  && (key in p.sysctls <==> key in h.sysctls && key !in hidden)
                  && (key in p.sysctls ==> p.sysctls[key] == Normalize(h.sysctls[key])))
            && p.available == (if AVAILABLE_KEY in hidden then [] else Fields(h.available))
  {
    hide Normalize, MANAGED_SYSCTLS, Fields, AVAILABLE_KEY, Qdiscs.Ready, Qdiscs.Split;
    AvailableIsNotManaged();
    NormalizeCanonical(h.available, "");
    FieldsBlankIff("");
  }

  lemma AvailableIsNotManaged()
    ensures AVAILABLE_KEY !in MANAGED_SYSCTLS
  {
    assert |AVAILABLE_KEY| == 41;
    assert forall key | key in MANAGED_SYSCTLS :: |key| < 41;
  }

  class Detector {
    const host: Host
    const machine: Machine

    constructor (host: Host, machine: Machine)
      ensures this.host == host && this.machine == machine
    {
      this.host, this.machine := host, machine;
    }

    // Without tc's output nothing is known to be ready.
    method ReadQdisc() returns (ready: bool)
      ensures ready == machine.FqReady()
    {
      if machine.qdisc.None? { return false; }
      var q := Qdiscs.ParseQdisc(machine.qdisc.value);
      return q.fqReady;
    }

    // The inspected keys in an arbitrary order, and the available congestion controls.
    method Inspect(hidden: set<string>) returns (sysctls: Values)
      ensures sysctls == Inspected(host.View(), hidden)
    {
      hide Normalize, MANAGED_SYSCTLS, AVAILABLE_KEY;
      sysctls := map[];
      var rest := MANAGED_SYSCTLS;
      ghost var done: set<string> := {};
      while rest != {}
        invariant done + rest == MANAGED_SYSCTLS
        invariant sysctls == Readings(host.View(), hidden, done)
        decreases |rest|
      {
        var key :| key in rest;
        if key in host.sysctls && key !in hidden { sysctls := sysctls[key := Normalize(host.sysctls[key])]; }
        rest := rest - {key};
        done := done + {key};
      }
      assert done == MANAGED_SYSCTLS;
      if AVAILABLE_KEY !in hidden { sysctls := sysctls[AVAILABLE_KEY := Normalize(host.available)]; }
    }

    // An unreadable key is left out; the rest is the host, normalised.
    method Detect() returns (r: Result<Profile, Failure>)
      modifies host`tick
      ensures host.tick == old(host.tick) + 1
      ensures r == if host.world(old(host.tick)).ok
                   then Ok(ProfileOf(host.View(), machine, host.world(old(host.tick)).hidden)) else Err(DetectFailed)
    {
      hide Fields, Inspected, AVAILABLE_KEY, Machine.FqReady;
      var a := host.Ask();
      if !a.ok { return Err(DetectFailed); }
      var sysctls := Inspect(a.hidden);
      var available := Lookup(sysctls, AVAILABLE_KEY);
      var fqReady := ReadQdisc();
      return Ok(Profile(machine.memoryMB, machine.interfaceSpeedMbps, sysctls, Fields(available), fqReady));
    }
  }

  // ---------- drift ----------

  datatype Drift = Drift(needed: bool, reasons: seq<string>)

  // The file is a regular file holding these bytes.
  predicate Holds(files: map<string, Node>, path: string, data: string) {
    path in files && files[path].Regular? && files[path].data == data
  }

  // A recommended value is not what the plan found, or a managed file is missing or differs.
  ghost predicate Drifted(cfg: Paths, plan: Plan, h: State) {
    || (exists key :: key in plan.changes && plan.changes[key].changed)
    || !Holds(h.files, cfg.sysctlFile, plan.config)
    || !Holds(h.files, cfg.modulesFile, MODULES_CONTENT)
  }

  function KeyReasons(keys: seq<string>, changes: map<string, Change>): seq<string>
    requires forall i | 0 <= i < |keys| :: keys[i] in changes
  {
    if keys == [] then []
    else
      var key := keys[|keys| - 1];
      KeyReasons(keys[..|keys| - 1], changes) + (if changes[key].changed then ["sysctl drift: " + key] else [])
  }

  function FileReasons(files: map<string, Node>, path: string, data: string): seq<string> {
    if path !in files then ["managed file is missing: " + path]
    else if Holds(files, path, data) then []
    else ["managed file content drift: " + path]
  }

  ghost function Reasons(cfg: Paths, plan: Plan, h: State): seq<string> {
    KeyReasons(SortedKeys(plan.changes.Keys), plan.changes)
    + FileReasons(h.files, cfg.sysctlFile, plan.config)
    + FileReasons(h.files, cfg.modulesFile, MODULES_CONTENT)
  }

  lemma {:induction false} KeyReasonsEmptyIff(keys: seq<string>, changes: map<string, Change>)
    requires forall i | 0 <= i < |keys| :: keys[i] in changes
    ensures KeyReasons(keys, changes) == [] <==> forall i | 0 <= i < |keys| :: !changes[keys[i]].changed
  {
    if keys != [] {
      var rest := keys[..|keys| - 1];
      KeyReasonsEmptyIff(rest, changes);
      assert forall i | 0 <= i < |rest| :: rest[i] == keys[i];
    }
  }

  // And each drifted key is named.
  lemma {:induction false} ReasonsNameKeys(keys: seq<string>, changes: map<string, Change>, key: string)
    requires forall i | 0 <= i < |keys| :: keys[i] in changes
    ensures "sysctl drift: " + key in KeyReasons(keys, changes) <==> key in keys && changes[key].changed
  {
    if keys != [] {
      var rest, last := keys[..|keys| - 1], keys[|keys| - 1];
      ReasonsNameKeys(rest, changes, key);
      assert keys == rest + [last];
      assert ("sysctl drift: " + key)[14..] == key && ("sysctl drift: " + last)[14..] == last;
    }
  }

  // A reason is given exactly when something drifted.
  lemma ReasonsEmptyIff(cfg: Paths, plan: Plan, h: State)
    ensures Reasons(cfg, plan, h) == [] <==> !Drifted(cfg, plan, h)
  {
    hide SortedKeys;
    var keys := SortedKeys(plan.changes.Keys);
    KeyReasonsEmptyIff(keys, plan.changes);
    assert forall key | key in plan.changes :: key in keys;
  }

  predicate Inspectable(files: map<string, Node>, path: string) {
    path !in files || files[path].Regular?
  }

  method FileDrift(host: Host, path: string, data: string) returns (r: Result<seq<string>, Failure>)
    modifies host`tick
    ensures host.tick == old(host.tick) + 1
    ensures r == if host.world(old(host.tick)).ok && Inspectable(host.files, path)
                 then Ok(FileReasons(host.files, path, data)) else Err(InspectFailed(path))
  {
    var a := host.Ask();
    if !a.ok { return Err(InspectFailed(path)); }
    if path !in host.files { return Ok(["managed file is missing: " + path]); }
    match host.files[path]
    case Regular(_, found) =>
      if found != data { return Ok(["managed file content drift: " + path]); }
      return Ok([]);
    case _ => return Err(InspectFailed(path));
  }

  // NeedsApply: reads only; when it answers, the answer is the drift there is.
  method NeedsApply(m: Manager, plan: Plan) returns (r: Result<Drift, Failure>)
    modifies m.host`tick
    ensures m.host.tick >= old(m.host.tick)
    ensures r.Ok? ==> m.host.tick == old(m.host.tick) + 2
    ensures r.Ok? && !r.value.needed ==> r.value.reasons == []
    ensures r.Ok? ==> r.value.reasons == Reasons(m.paths, plan, m.host.View())
    ensures r.Ok? ==> (r.value.needed <==> Drifted(m.paths, plan, m.host.View()))
    ensures r.Ok? <==>
              && m.Ready() && AllowlistTest(plan.recommendation.sysctls)
              && Inspectable(m.host.files, m.paths.sysctlFile) && Inspectable(m.host.files, m.paths.modulesFile)
              && m.host.world(old(m.host.tick)).ok && m.host.world(old(m.host.tick) + 1).ok
  {
    hide AllowlistTest, SortedKeys, FileReasons, Drifted;
    if !m.Ready() { return Err(NotReady); }
    if !AllowlistTest(plan.recommendation.sysctls) { return Err(OutsideAllowlist); }
    var keys := CollectSortedKeys(plan.changes);
    var reasons := [];
    assert keys[..0] == [];
    for i := 0 to |keys|
      invariant forall j | 0 <= j < |keys| :: keys[j] in plan.changes
      invariant reasons == KeyReasons(keys[..i], plan.changes)
    {
      assert keys[..i + 1][..i] == keys[..i];
      if plan.changes[keys[i]].changed { reasons := reasons + ["sysctl drift: " + keys[i]]; }
    }
    assert keys[..|keys|] == keys;
    var first := FileDrift(m.host, m.paths.sysctlFile, plan.config);
    if first.Err? { return Err(first.error); }
    reasons := reasons + first.value;
    var second := FileDrift(m.host, m.paths.modulesFile, MODULES_CONTENT);
    if second.Err? { return Err(second.error); }
    reasons := reasons + second.value;
    ReasonsEmptyIff(m.paths, plan, m.host.View());
    return Ok(Drift(|reasons| > 0, reasons));
  }

  // ---------- verification of the running host ----------

  const DEFAULT_EXPECTED: Values :=
    map[DEFAULT_QDISC := "fq", CONGESTION := "bbr", FASTOPEN := "3", MODERATE_RCVBUF := "1", MTU_PROBING := "1"]

  const QDISC_NOT_READY := "active qdisc is not fq or mq with fq leaves; sshappy-tune does not rebuild live qdisc state"

  // What verification expects: the parsed file, or the defaults where reading finds none.
  function ExpectedOn(files: map<string, Node>, path: string): Option<Values> {
    if NotFound(files, path) then Some(DEFAULT_EXPECTED)
    else
      match ReadThrough(files[path])
      case None => None
      case Some(data) => Parsed(data)
  }

  const BBR_UNAVAILABLE := Check("BBR availability", "available", "unavailable", false)

  // One check per expected key, one more if bbr is unavailable, and the qdisc warning.
  ghost function Verdict(profile: Profile, expected: Values): Verification {
    var v := Compared(profile.sysctls, expected);
    var available := "bbr" in profile.available;
    Verification(v.ok && available, v.checks + (if available then [] else [BBR_UNAVAILABLE]),
                 if profile.fqReady then [] else [QDISC_NOT_READY])
  }

  // With no file to go by, the verdict is good exactly if these five values read back and
  // bbr is available.
  lemma DefaultVerdictIff(profile: Profile, files: map<string, Node>, path: string)
    requires NotFound(files, path)
    ensures ExpectedOn(files, path).Some?
    ensures Verdict(profile, ExpectedOn(files, path).value).ok <==>
            && Normalize(Lookup(profile.sysctls, "net.core.default_qdisc")) == "fq"
            && Normalize(Lookup(profile.sysctls, "net.ipv4.tcp_congestion_control")) == "bbr"
            && Normalize(Lookup(profile.sysctls, "net.ipv4.tcp_fastopen")) == "3"
            && Normalize(Lookup(profile.sysctls, "net.ipv4.tcp_moderate_rcvbuf")) == "1"
            && Normalize(Lookup(profile.sysctls, "net.ipv4.tcp_mtu_probing")) == "1"
            && "bbr" in profile.available
  {
    hide Normalize, Lookup, ChecksOf, SortedKeys, DEFAULT_EXPECTED;
    ConstantsAreNormal();
    DefaultsAre();
    var d, s := DEFAULT_EXPECTED, profile.sysctls;
    assert Meets(s, d) <==>
           && KeyMeets(s, d, DEFAULT_QDISC) && KeyMeets(s, d, CONGESTION) && KeyMeets(s, d, FASTOPEN)
           && KeyMeets(s, d, MODERATE_RCVBUF) && KeyMeets(s, d, MTU_PROBING);
  }

  lemma ConstantsAreNormal()
    ensures Normalize("fq") == "fq" && Normalize("bbr") == "bbr" && Normalize("3") == "3" && Normalize("1") == "1"
  {
    hide Normalize, Blank;
    ConstantsArePlain();
  }

  lemma DefaultsAre()
    ensures var d := DEFAULT_EXPECTED;
            && d.Keys == {DEFAULT_QDISC, CONGESTION, FASTOPEN, MODERATE_RCVBUF, MTU_PROBING}
            && d[DEFAULT_QDISC] == "fq" && d[CONGESTION] == "bbr" && d[FASTOPEN] == "3"
            && d[MODERATE_RCVBUF] == "1" && d[MTU_PROBING] == "1"
  {
  }

  // What is expected by default is what every recommendation asks for.
  lemma DefaultsAreRecommended(profile: Profile, input: Input)
    requires Recommended(profile, input).Ok?
    ensures forall key | key in DEFAULT_EXPECTED ::
              key in Recommended(profile, input).value.sysctls
              && Recommended(profile, input).value.sysctls[key] == DEFAULT_EXPECTED[key]
  {
    hide Recommended, DEFAULT_EXPECTED, MANAGED_SYSCTLS;
    DefaultsAre();
    SwitchesRecommended(profile, input);
  }

  // It lists every expected key, with one more entry if bbr is not available, and warns
  // exactly if pacing is not ready.
  lemma VerdictIs(profile: Profile, expected: Values)
    ensures var v := Verdict(profile, expected);
            && (v.ok <==> Compared(profile.sysctls, expected).ok && "bbr" in profile.available)
            && Compared(profile.sysctls, expected).checks <= v.checks
            && |v.checks| == |expected| + (if "bbr" in profile.available then 0 else 1)
            && ("bbr" !in profile.available ==> v.checks[|expected|] == Check("BBR availability", "available", "unavailable", false))
            && (v.warnings == [] <==> profile.fqReady)
  {
    hide ChecksOf, SortedKeys, Meets, Normalize;
    ComparedIs(profile.sysctls, expected);
  }

  // Verify: OK exactly when every expected key reads back and bbr is available.
  method Verify(m: Manager, detector: Detector) returns (r: Result<Verification, Failure>)
    requires detector.host == m.host
    modifies m.host`tick
    ensures m.host.tick >= old(m.host.tick)
    ensures r.Ok? <==> m.host.world(old(m.host.tick)).ok && m.host.world(old(m.host.tick) + 1).ok
                       && ExpectedOn(m.host.files, m.paths.sysctlFile).Some?
    ensures r.Ok? ==>
              var profile := ProfileOf(m.host.View(), detector.machine, m.host.world(old(m.host.tick)).hidden);
              var expected := ExpectedOn(m.host.files, m.paths.sysctlFile).value;
              && r.value == Verdict(profile, expected)
              && (r.value.ok <==> Meets(profile.sysctls, expected) && "bbr" in profile.available)
              && (r.value.warnings == [] <==> detector.machine.FqReady())
  {
    hide ProfileOf, Parsed, Meets, ChecksOf, Normalize, DEFAULT_EXPECTED, SortedKeys, BBR_UNAVAILABLE, QDISC_NOT_READY,
         Machine.FqReady, MANAGED_SYSCTLS;
    var detected := detector.Detect();
    if detected.Err? { return Err(detected.error); }
    var profile := detected.value;
    MachineKept(m.host.View(), detector.machine, m.host.world(old(m.host.tick)).hidden);
    var a := m.host.Ask();
    if !a.ok { return Err(InspectFailed(m.paths.sysctlFile)); }
    var expected := DEFAULT_EXPECTED;
    if !NotFound(m.host.files, m.paths.sysctlFile) {
      var text := ReadThrough(m.host.files[m.paths.sysctlFile]);
      if text.None? { return Err(InspectFailed(m.paths.sysctlFile)); }
      var parsed := ParseSysctlConfig(text.value);
      if parsed.None? { return Err(MalformedConfig); }
      expected := parsed.value;
    }
    var v := VerifyMaps(profile.sysctls, expected);
    if "bbr" !in profile.available {
      v := v.(ok := false, checks := v.checks + [BBR_UNAVAILABLE]);
    }
    if !profile.fqReady { v := v.(warnings := v.warnings + [QDISC_NOT_READY]); }
    return Ok(v);
  }

  predicate BbrAvailable(h: State) {
    "bbr" in Fields(Normalize(h.available))
  }

  lemma ReadableAvailability(h: State, machine: Machine)
    ensures "bbr" in ProfileOf(h, machine, {}).available <==> BbrAvailable(h)
  {
    hide Fields, Normalize, MANAGED_SYSCTLS;
  }

  lemma MachineKept(h: State, machine: Machine, hidden: set<string>)
    ensures ProfileOf(h, machine, hidden).fqReady == machine.FqReady()
    ensures ProfileOf(h, machine, hidden).memoryMB == machine.memoryMB
  {
  }

  // ---------- plans of a fully readable host ----------

  ghost function RecommendedOn(h: State, machine: Machine, input: Input): Result<Recommendation, Refusal> {
    Recommended(ProfileOf(h, machine, {}), input)
  }

  ghost function PlanOn(h: State, machine: Machine, input: Input): Plan
    requires RecommendedOn(h, machine, input).Ok?
  {
    PlanOf(ProfileOf(h, machine, {}).sysctls, RecommendedOn(h, machine, input).value)
  }

  // The host is where the plan wants it: the keys read back and both files hold the bytes.
  ghost predicate InPlace(cfg: Paths, plan: Plan, h: State) {
    && (forall key | key in plan.recommendation.sysctls :: KeyAgrees(h.sysctls, key, plan.recommendation.sysctls[key]))
    && Holds(h.files, cfg.sysctlFile, plan.config)
    && Holds(h.files, cfg.modulesFile, MODULES_CONTENT)
  }

  lemma AppliedIsInPlace(cfg: Paths, plan: Plan, h: State)
    requires Applied(cfg, plan, h)
    ensures InPlace(cfg, plan, h)
  {
  }

  lemma ReadingAgrees(h: State, machine: Machine, key: string, value: string)
    requires key in MANAGED_SYSCTLS && !Blank(value)
    ensures Normalize(Lookup(ProfileOf(h, machine, {}).sysctls, key)) == Normalize(value) <==> KeyAgrees(h.sysctls, key, value)
  {
    hide MANAGED_SYSCTLS, Fields, Join;
    AvailableIsNotManaged();
    NormalizeBlankIff(value);
    NormalizeBlankIff("");
    if key in h.sysctls { NormalizeCanonical(h.sysctls[key], ""); }
  }

  // No drift means exactly that the plan is in place.
  lemma NoDriftIff(cfg: Paths, h: State, machine: Machine, input: Input)
    requires RecommendedOn(h, machine, input).Ok?
    ensures !Drifted(cfg, PlanOn(h, machine, input), h) <==> InPlace(cfg, PlanOn(h, machine, input), h)
  {
    hide MANAGED_SYSCTLS, Recommended, Rendered, Normalize, Blank, ProfileOf, KeyAgrees, KeyOk;
    var profile := ProfileOf(h, machine, {});
    var rec := RecommendedOn(h, machine, input).value;
    RecommendationRoundTrip(profile, input);
    var plan := PlanOn(h, machine, input);
    forall key | key in rec.sysctls
      ensures plan.changes[key].changed <==> !KeyAgrees(h.sysctls, key, rec.sysctls[key])
    {
      ReadingAgrees(h, machine, key, rec.sysctls[key]);
    }
    assert plan.changes.Keys == rec.sysctls.Keys;
  }

  // If nothing drifted, verification expects exactly the recommended values, every one
  // of them reads back, and the verdict rests on the availability of bbr alone.
  lemma NoDriftAgreesWithVerify(cfg: Paths, h: State, machine: Machine, input: Input)
    requires RecommendedOn(h, machine, input).Ok? && !Drifted(cfg, PlanOn(h, machine, input), h)
    ensures ExpectedOn(h.files, cfg.sysctlFile) == Some(RecommendedOn(h, machine, input).value.sysctls)
    ensures Meets(ProfileOf(h, machine, {}).sysctls, RecommendedOn(h, machine, input).value.sysctls)
  {
    hide MANAGED_SYSCTLS, Recommended, Rendered, Normalize, Blank, ProfileOf, KeyAgrees, Parsed, DEFAULT_EXPECTED,
         KeyOk, Drifted;
    NoDriftIff(cfg, h, machine, input);
    var profile := ProfileOf(h, machine, {});
    var rec := RecommendedOn(h, machine, input).value;
    RecommendationRoundTrip(profile, input);
    forall key | key in rec.sysctls ensures KeyMeets(profile.sysctls, rec.sysctls, key) {
      ReadingAgrees(h, machine, key, rec.sysctls[key]);
    }
  }

  // ---------- one step is enough ----------

  lemma BacklogKept(h: State, machine: Machine, key: string, current: string)
    requires key in MANAGED_SYSCTLS
    requires KeyAgrees(h.sysctls, key, FormatInt(MaxParsed(current, MINIMUM_BACKLOG)))
    ensures MaxParsed(Lookup(ProfileOf(h, machine, {}).sysctls, key), MINIMUM_BACKLOG) == MaxParsed(current, MINIMUM_BACKLOG)
  {
    hide MANAGED_SYSCTLS, Fields, Join, ParseInt, FormatInt;
    AvailableIsNotManaged();
    MaxParsedFixpoint(current, MINIMUM_BACKLOG);
    NumberIsPlain(MaxParsed(current, MINIMUM_BACKLOG));
  }

  // Once a plan is in place, the host recomputes the very same recommendation, hence
  // the same bytes, and sees no drift: a second reconcile has nothing to do.
  lemma PlanInPlaceIsStable(cfg: Paths, before: State, h: State, machine: Machine, input: Input)
    requires RecommendedOn(before, machine, input).Ok?
    requires InPlace(cfg, PlanOn(before, machine, input), h)
    ensures RecommendedOn(h, machine, input) == RecommendedOn(before, machine, input)
    ensures PlanOn(h, machine, input).config == PlanOn(before, machine, input).config
    ensures !Drifted(cfg, PlanOn(h, machine, input), h)
  {
    hide MANAGED_SYSCTLS, Rendered, Normalize, FormatInt, KeyAgrees, Drifted, MaxParsed, BufferMax, ProfileOf;
    var p0, p1 := ProfileOf(before, machine, {}), ProfileOf(h, machine, {});
    var rec := RecommendedOn(before, machine, input).value;
    SameMachine(before, h, machine);
    var s0, y0 := Lookup(p0.sysctls, SOMAXCONN), Lookup(p0.sysctls, SYN_BACKLOG);
    BacklogLookups(rec.bufferMaxBytes, MaxParsed(s0, MINIMUM_BACKLOG), MaxParsed(y0, MINIMUM_BACKLOG));
    BacklogsAreManaged();
    assert KeyAgrees(h.sysctls, SOMAXCONN, rec.sysctls[SOMAXCONN]);
    assert KeyAgrees(h.sysctls, SYN_BACKLOG, rec.sysctls[SYN_BACKLOG]);
    BacklogKept(h, machine, SOMAXCONN, s0);
    BacklogKept(h, machine, SYN_BACKLOG, y0);
    assert RecommendedOn(h, machine, input) == RecommendedOn(before, machine, input);
    NoDriftIff(cfg, h, machine, input);
  }

  lemma SameMachine(before: State, h: State, machine: Machine)
    ensures var p0, p1 := ProfileOf(before, machine, {}), ProfileOf(h, machine, {});
            p0.memoryMB == p1.memoryMB && p0.interfaceSpeedMbps == p1.interfaceSpeedMbps && p0.fqReady == p1.fqReady
  {
  }

  lemma BacklogsAreManaged()
    ensures SOMAXCONN in MANAGED_SYSCTLS && SYN_BACKLOG in MANAGED_SYSCTLS
  {
  }

  // The host needs nothing: its own recommendation is in place.
  ghost predicate Settled(cfg: Paths, machine: Machine, input: Input, h: State) {
    RecommendedOn(h, machine, input).Ok? && !Drifted(cfg, PlanOn(h, machine, input), h)
  }

  // On a settled host nothing stands in the way of finding that out.
  lemma SettledIsInspectable(cfg: Paths, machine: Machine, input: Input, h: State)
    requires Settled(cfg, machine, input, h)
    ensures AllowlistTest(PlanOn(h, machine, input).recommendation.sysctls)
    ensures Inspectable(h.files, cfg.sysctlFile) && Inspectable(h.files, cfg.modulesFile)
    ensures ExpectedOn(h.files, cfg.sysctlFile) == Some(RecommendedOn(h, machine, input).value.sysctls)
    ensures Meets(ProfileOf(h, machine, {}).sysctls, RecommendedOn(h, machine, input).value.sysctls)
  {
    hide MANAGED_SYSCTLS, Recommended, Rendered, Parsed, ProfileOf, Meets, Normalize, DEFAULT_EXPECTED, ExpectedOn,
         AllowlistTest, KeyOk;
    NoDriftIff(cfg, h, machine, input);
    NoDriftAgreesWithVerify(cfg, h, machine, input);
    PlansAreAllowed(ProfileOf(h, machine, {}), input);
  }

  // And a settled host is tuned.
  lemma SettledIsTuned(cfg: Paths, machine: Machine, input: Input, h: State)
    requires Settled(cfg, machine, input, h)
    ensures Tuned(cfg, h)
  {
    hide Recommended, Rendered, Parsed, ProfileOf, KeyAgrees, Tuned, MANAGED_SYSCTLS, Drifted;
    NoDriftIff(cfg, h, machine, input);
    InForce(cfg, ProfileOf(h, machine, {}), input, h);
  }

  lemma PlansAreAllowed(profile: Profile, input: Input)
    requires Recommended(profile, input).Ok?
    ensures AllowlistTest(Recommended(profile, input).value.sysctls)
    ensures AllowlistTest(PlanOf(profile.sysctls, Recommended(profile, input).value).recommendation.sysctls)
  {
    hide MANAGED_SYSCTLS, Recommended, Rendered, Parsed, KeyOk, AllowlistTest, Normalized, Renderable;
    RecommendationRoundTrip(profile, input);
    AllowlistTestIff(Recommended(profile, input).value.sysctls);
  }

  // A stored record of the host b, under the identifier.
  ghost predicate RecordOf(cfg: Paths, b: State, h: State, id: string) {
    exists snap :: Captured(cfg, b, snap) && Durable(h, snap) && snap.id == id
  }

  datatype ReconcileResult = ReconcileResult(changed: bool, snapshotId: string, drift: Drift, verification: Verification)

  // The result carries what Apply reported.
  predicate Passed(report: Report, result: ReconcileResult, failure: Option<Failure>, restoreFailures: seq<Failure>) {
    && result.changed == report.NoError() && result.snapshotId == report.snapshotId
    && result.verification == report.verification && restoreFailures == report.restoreFailures
    && (failure.None? <==> report.NoError()) && (report.failure.Some? ==> failure == report.failure)
  }

  const NO_RESULT := ReconcileResult(false, "", Drift(false, []), UNVERIFIED)

  // Whatever could be read, a plan made from a recommendation assigns its keys and no others.
  lemma PlansLoadTheirKeys(profile: Profile, input: Input)
    requires Recommended(profile, input).Ok?
    ensures var plan := PlanOf(profile.sysctls, Recommended(profile, input).value); Contained(plan) && Loads(plan)
  {
    hide Recommended, Rendered, KeyOk, MANAGED_SYSCTLS, AssignedKeys;
    RecommendationRoundTrip(profile, input);
  }

  class App {
    const manager: Manager
    const detector: Detector

    constructor (manager: Manager, detector: Detector)
      ensures this.manager == manager && this.detector == detector
    {
      this.manager, this.detector := manager, detector;
    }

    ghost predicate WellTyped(input: Input) {
      && detector.host == manager.host
      && IsInt64(input.bandwidthMbps) && IsInt64(input.rttMillis) && IsInt64(detector.machine.memoryMB)
    }

    // Detection, the recommendation and the drift check go through, they find drift, and
    // Apply gets past its checks and the lock.
    ghost predicate Proceeds(input: Input)
      reads manager.host
      requires WellTyped(input)
    {
      ProceedsFrom(input, manager.host.View(), manager.host.tick, manager.host.locked)
    }

    ghost predicate ProceedsFrom(input: Input, h: State, t: nat, locked: bool)
      requires WellTyped(input)
    {
      var world := manager.host.world;
      var profile := ProfileOf(h, detector.machine, world(t).hidden);
      && world(t).ok && Recommended(profile, input).Ok?
      && manager.Ready() && Inspectable(h.files, manager.paths.sysctlFile) && Inspectable(h.files, manager.paths.modulesFile)
      && world(t + 1).ok && world(t + 2).ok
      && Drifted(manager.paths, PlanOf(profile.sysctls, Recommended(profile, input).value), h)
      && manager.euid == 0 && world(t + 3).ok && !locked
    }

    // The plan made from what detection sees now.
    ghost function PlanNow(input: Input): Plan
      reads manager.host
      requires WellTyped(input) && Proceeds(input)
    {
      PlanFrom(input, manager.host.View(), manager.host.tick)
    }

    ghost function PlanFrom(input: Input, h: State, t: nat): Plan
      requires WellTyped(input) && Recommended(ProfileOf(h, detector.machine, manager.host.world(t).hidden), input).Ok?
    {
      var profile := ProfileOf(h, detector.machine, manager.host.world(t).hidden);
      PlanOf(profile.sysctls, Recommended(profile, input).value)
    }

    // The directories that a reconcile from host h at t until u came to.
    ghost function ReconcileReach(input: Input, h: State, t: nat, locked: bool, u: nat): set<string>
      requires WellTyped(input)
    {
      if ProceedsFrom(input, h, t, locked) && t + 4 <= u then
        ReachOfRun(manager.paths, h, Modprobe(PlanFrom(input, h, t)), manager.host.world, t + 4, u - (t + 4))
      else {}
    }

    // One section applying the plan has led from host h at t to the host now, and the result
    // carries its report.
    ghost predicate AppliedOnce(plan: Plan, h: State, t: nat, end: State, u: nat, result: ReconcileResult,
                                failure: Option<Failure>, restoreFailures: seq<Failure>)
    {
      InRange(Modprobe(plan)) && exists report ::
        && Reaches(manager.paths, h, Modprobe(plan), manager.host.world, t, Moment(end, Finished(report)), u)
        && Passed(report, result, failure, restoreFailures)
    }

    // A reconcile leaves exactly the directories it came to besides those that were there.
    lemma SectionReach(plan: Plan, h: State, t: nat, end: State, u: nat, result: ReconcileResult, failure: Option<Failure>,
                       restoreFailures: seq<Failure>)
      requires AppliedOnce(plan, h, t, end, u, result, failure, restoreFailures)
      ensures t <= u && InRange(Modprobe(plan))
      ensures end.dirs == h.dirs + ReachOfRun(manager.paths, h, Modprobe(plan), manager.host.world, t, u - t)
      ensures result.changed ==> BothAbove(manager.paths) <= end.dirs
    {
      hide InRange, Exec, BothAbove, ReachOfRun;
      var report :| Reaches(manager.paths, h, Modprobe(plan), manager.host.world, t, Moment(end, Finished(report)), u)
                    && Passed(report, result, failure, restoreFailures);
      SectionCame(manager.paths, ApplyOp(plan), h, manager.host.world, t, end, report, u);
    }

    lemma ReconcileCame(input: Input, h: State, t: nat, locked: bool, end: State, u: nat,
                        result: ReconcileResult, failure: Option<Failure>, restoreFailures: seq<Failure>)
      requires WellTyped(input)
      requires ProceedsFrom(input, h, t, locked) ==>
                 AppliedOnce(PlanFrom(input, h, t), h, t + 4, end, u, result, failure, restoreFailures)
      requires !ProceedsFrom(input, h, t, locked) ==> end == h && !result.changed
      ensures end.dirs == h.dirs + ReconcileReach(input, h, t, locked, u)
      ensures result.changed ==> BothAbove(manager.paths) <= end.dirs
    {
      hide PlanFrom, InRange, AppliedOnce, Recommended, ProfileOf, Drifted, Inspectable, BothAbove, ReachOfRun;
      if ProceedsFrom(input, h, t, locked) {
        SectionReach(PlanFrom(input, h, t), h, t + 4, end, u, result, failure, restoreFailures);
      }
    }

    // The kernel will do as the plan says and the host can be captured.
    ghost predicate Obliged(plan: Plan)
      reads manager.host
    {
      Obliging(manager.host.world, plan) && Capturable(manager.paths, manager.host.View())
    }

    ghost predicate Favourable(plan: Plan)
      reads manager.host
    {
      Distinct(manager.paths) && Loads(plan) && manager.Granted(ApplyOp(plan)) && Obliged(plan)
    }

    // Everything can be inspected, nothing will fail, and there is drift to remove.
    ghost predicate Ripe(input: Input)
      reads manager.host
      requires WellTyped(input)
    {
      RipeOn(input, manager.host.View(), manager.host.locked)
    }

    ghost predicate RipeOn(input: Input, h: State, locked: bool)
      requires WellTyped(input)
    {
      && Distinct(manager.paths) && AllOk(manager.host.world) && FullyReadable(manager.host.world)
      && manager.Ready() && manager.euid == 0 && !locked
      && RecommendedOn(h, detector.machine, input).Ok?
      && Inspectable(h.files, manager.paths.sysctlFile) && Inspectable(h.files, manager.paths.modulesFile)
      && Drifted(manager.paths, PlanOn(h, detector.machine, input), h)
      && Obliging(manager.host.world, PlanOn(h, detector.machine, input)) && Capturable(manager.paths, h)
    }

    lemma RipeProceeds(input: Input)
      requires WellTyped(input) && Ripe(input)
      ensures Distinct(manager.paths) && Proceeds(input) && Obliged(PlanNow(input))
    {
      hide ProfileOf, Recommended, PlanOf, Drifted, Obliging, Capturable, Inspectable;
      assert manager.host.world(manager.host.tick).hidden == {};
    }

    // Apply the plan and pass its report on.
    method ApplyDrift(plan: Plan, drift: Drift)
      returns (result: ReconcileResult, failure: Option<Failure>, restoreFailures: seq<Failure>)
      modifies manager.host`tick, manager.host`locked, manager.host`sysctls, manager.host`available,
               manager.host`files, manager.host`dirs, manager.host`strays, manager.host`store, manager.host`latest
      ensures manager.host.locked == old(manager.host.locked)
      ensures Distinct(manager.paths) && failure.None? ==> InPlace(manager.paths, plan, manager.host.View())
      ensures result.changed <==> failure.None?
      ensures Distinct(manager.paths) && result.changed ==>
                RecordOf(manager.paths, old(manager.host.View()), manager.host.View(), result.snapshotId)
      ensures Distinct(manager.paths) && failure.Some? && restoreFailures == [] ==>
                PutBack(manager.paths, old(manager.host.View()), manager.host.View(), result.snapshotId)
      ensures StraysFollow(old(manager.host.strays), manager.host.strays, manager.host.world)
      ensures Distinct(manager.paths) && Contained(plan) ==> Framed(manager.paths, old(manager.host.View()), manager.host.View())
      ensures old(manager.Granted(ApplyOp(plan))) ==>
                AppliedOnce(plan, old(manager.host.View()), old(manager.host.tick) + 1, manager.host.View(), manager.host.tick,
                            result, failure, restoreFailures)
      ensures old(Favourable(plan)) ==> failure.None?
      ensures result.drift == drift
      ensures !old(manager.Granted(ApplyOp(plan))) ==> manager.host.View() == old(manager.host.View()) && !result.changed
    {
      hide Obliging, Capturable, Exec, AllowlistTest, Applied, PutBack, StraysFollow, Framed, Captured, Contained, Loads, Recoverable, Reaches,
           InPlace, Favourable, Obliged;
      ghost var b, t, favourable := manager.host.View(), manager.host.tick + 1, Favourable(plan);
      if favourable { FavourableParts(plan); }
      var report := manager.Apply(plan);
      if favourable {
        ObligedReportIsClean(manager.paths, plan, b, manager.host.world, t,
                             Moment(manager.host.View(), Finished(report)), manager.host.tick);
      }
      result := ReconcileResult(report.NoError(), report.snapshotId, drift, report.verification);
      failure, restoreFailures := None, report.restoreFailures;
      if !report.NoError() {
        failure := if report.failure.Some? then report.failure else Some(report.restoreFailures[0]);
      } else if Distinct(manager.paths) {
        AppliedIsInPlace(manager.paths, plan, manager.host.View());
      }
    }

    lemma FavourableParts(plan: Plan)
      requires Favourable(plan)
      ensures Distinct(manager.paths) && Loads(plan) && manager.Granted(ApplyOp(plan)) && Admitted(ApplyOp(plan))
      ensures Obliging(manager.host.world, plan) && Capturable(manager.paths, manager.host.View())
    {
      hide Contained, Loads, AllowlistTest, Obliging, Capturable;
    }

    // buildRecommendation: detection, then the recommendation for what it found.
    method BuildRecommendation(input: Input) returns (r: Result<(Profile, Recommendation), Failure>)
      requires WellTyped(input)
      modifies manager.host`tick
      ensures r.Ok? ==> manager.host.tick == old(manager.host.tick) + 1
      ensures var profile := ProfileOf(manager.host.View(), detector.machine, manager.host.world(old(manager.host.tick)).hidden);
              r.Ok? <==> manager.host.world(old(manager.host.tick)).ok && Recommended(profile, input).Ok?
      ensures var profile := ProfileOf(manager.host.View(), detector.machine, manager.host.world(old(manager.host.tick)).hidden);
              r.Ok? ==> Recommended(profile, input).Ok? && r.value == (profile, Recommended(profile, input).value)
    {
      hide ProfileOf, Recommended;
      var detected := detector.Detect();
      if detected.Err? { return Err(detected.error); }
      MachineKept(manager.host.View(), detector.machine, manager.host.world(old(manager.host.tick)).hidden);
      var recommended := Recommend.Recommend(detected.value, input);
      if recommended.Err? { return Err(NotRecommended(recommended.error)); }
      return Ok((detected.value, recommended.value));
    }

    // reconcileInput: detect, recommend, plan, and apply only if something drifted.
    method ReconcileInput(input: Input)
      returns (result: ReconcileResult, failure: Option<Failure>, restoreFailures: seq<Failure>)
      requires WellTyped(input)
      modifies manager.host`tick, manager.host`locked, manager.host`sysctls, manager.host`available,
               manager.host`files, manager.host`dirs, manager.host`strays, manager.host`store, manager.host`latest
      ensures manager.host.locked == old(manager.host.locked)
      // Success on a fully readable host leaves it settled.
      ensures Distinct(manager.paths) && failure.None? && manager.host.world(old(manager.host.tick)).hidden == {} ==>
                Settled(manager.paths, detector.machine, input, manager.host.View())
      // A settled, fully readable host is not touched and gets no snapshot.
      ensures old(Settled(manager.paths, detector.machine, input, manager.host.View()))
              && manager.host.world(old(manager.host.tick)).hidden == {} ==>
                manager.host.View() == old(manager.host.View()) && !result.changed && result.snapshotId == ""
      // It finds that out without an error, and its verdict is whether bbr is available.
      ensures old(Settled(manager.paths, detector.machine, input, manager.host.View()))
              && FullyReadable(manager.host.world) && AllOk(manager.host.world) && manager.Ready() ==>
                failure.None? && (result.verification.ok <==> BbrAvailable(manager.host.View()))
      // Drift that is found is met by exactly one Apply of the plan, whose report is passed on.
      ensures old(Proceeds(input)) ==>
                AppliedOnce(old(PlanNow(input)), old(manager.host.View()), old(manager.host.tick) + 4, manager.host.View(),
                            manager.host.tick, result, failure, restoreFailures)
      ensures old(Proceeds(input)) ==>
                result.drift == Drift(true, Reasons(manager.paths, old(PlanNow(input)), old(manager.host.View())))
      // Without drift the answer is that of Verify, asked right then.
      ensures !old(Proceeds(input)) && failure.None? ==>
                && result.drift == Drift(false, [])
                && ExpectedOn(manager.host.files, manager.paths.sysctlFile).Some?
                && result.verification ==
                     Verdict(ProfileOf(manager.host.View(), detector.machine, manager.host.world(old(manager.host.tick) + 3).hidden),
                             ExpectedOn(manager.host.files, manager.paths.sysctlFile).value)
      // Otherwise nothing is touched.
      ensures !old(Proceeds(input)) ==> manager.host.View() == old(manager.host.View()) && !result.changed
      // On an obliging host that Apply succeeds.
      ensures Distinct(manager.paths) && old(Proceeds(input)) && old(Obliged(PlanNow(input))) ==> failure.None?
      // A ripe host is tuned.
      ensures old(Ripe(input)) ==> failure.None? && result.changed
      // A change is recorded; without a change, success has touched nothing.
      ensures Distinct(manager.paths) && result.changed ==>
                failure.None? && RecordOf(manager.paths, old(manager.host.View()), manager.host.View(), result.snapshotId)
      ensures !result.changed && failure.None? ==>
                manager.host.View() == old(manager.host.View()) && result.snapshotId == ""
      // Failure without a restore error leaves the managed state as it was.
      ensures Distinct(manager.paths) && failure.Some? && restoreFailures == [] ==>
                PutBack(manager.paths, old(manager.host.View()), manager.host.View(), result.snapshotId)
      ensures Distinct(manager.paths) ==> Framed(manager.paths, old(manager.host.View()), manager.host.View())
      ensures StraysFollow(old(manager.host.strays), manager.host.strays, manager.host.world)
    {
      hide AppliedOnce, RipeOn, Obliging, Capturable, Exec, Recommended, PlanOf, ProfileOf, AllowlistTest, Applied,
           PutBack, StraysFollow, Framed, Captured, Drifted, Reasons, BbrAvailable,
           MANAGED_SYSCTLS, Contained, Loads, Parsed, Meets, Recoverable, Reaches, InPlace, ExpectedOn, Inspectable,
           Verdict, Machine.FqReady, Readings, Fields, Normalize, DEFAULT_EXPECTED, IsId, Durable, Step, Effect, Next,
           RecordOf, Compared, ChecksOf, SameManaged, KeyAgrees;
      ghost var b := manager.host.View();
      manager.SameAsBefore();
      FollowsItself(manager.host.strays, manager.host.world);
      if Ripe(input) { RipeProceeds(input); }
      result, failure, restoreFailures := NO_RESULT, None, [];
      var built := BuildRecommendation(input);
      if built.Err? { failure := Some(built.error); return; }
      var (profile, recommendation) := built.value;
      var plan := BuildPlan(profile.sysctls, recommendation);
      PlansAreAllowed(profile, input);
      ReadableAvailability(b, detector.machine);
      if Settled(manager.paths, detector.machine, input, b) { SettledIsInspectable(manager.paths, detector.machine, input, b); }
      var drift := NeedsApply(manager, plan);
      if drift.Err? { failure := Some(drift.error); return; }
      result := result.(drift := drift.value);
      if !drift.value.needed {
        var v := Verify(manager, detector);
        match v {
          case Err(f) => failure := Some(f);
          case Ok(verification) => result := result.(verification := verification);
        }
        return;
      }
      PlansLoadTheirKeys(profile, input);
      result, failure, restoreFailures := ApplyDrift(plan, drift.value);
      if Distinct(manager.paths) && failure.None? && manager.host.world(old(manager.host.tick)).hidden == {} {
        assert plan == PlanOn(b, detector.machine, input);
        PlanInPlaceIsStable(manager.paths, b, manager.host.View(), detector.machine, input);
      }
    }
  }
}
