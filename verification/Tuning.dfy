/**
 What a recommendation asks for, value by value, and what an error-free Apply of it leaves
 on the host.
 */
module Tuning {
  import opened Wrappers
  import opened Text
  import opened Decimal
  import opened Recommend
  import opened Config
  import opened HostState
  import opened Engine
  import opened Recovery

  // ---------- what is refused ----------

  // Recommended exactly for a bandwidth of 1 to 100000 Mbps, a round-trip time of 1 to 2000
  // ms, no role or the role "proxy", and at least 128 MB of memory.
  lemma RecommendedIff(profile: Profile, input: Input)
    ensures Recommended(profile, input).Ok? <==>
            && 1 <= input.bandwidthMbps <= 100000 && 1 <= input.rttMillis <= 2000
            && input.role in {"", "proxy"} && profile.memoryMB >= 128
  {
    hide Recommend.Values, BufferMax, MaxParsed;
  }

  // ---------- the thirteen values ----------

  lemma QueueingValues(buffer: nat, somaxconn: int, synBacklog: int)
    ensures var values := Recommend.Values(buffer, somaxconn, synBacklog);
            && DEFAULT_QDISC in values && values[DEFAULT_QDISC] == "fq"
            && CONGESTION in values && values[CONGESTION] == "bbr"
  {
    hide FormatInt;
  }

  lemma SwitchValues(buffer: nat, somaxconn: int, synBacklog: int)
    ensures var values := Recommend.Values(buffer, somaxconn, synBacklog);
            && FASTOPEN in values && values[FASTOPEN] == "3"
            && MODERATE_RCVBUF in values && values[MODERATE_RCVBUF] == "1"
            && MTU_PROBING in values && values[MTU_PROBING] == "1"
  {
    hide FormatInt;
  }

  lemma MoreSwitchValues(buffer: nat, somaxconn: int, synBacklog: int)
    ensures var values := Recommend.Values(buffer, somaxconn, synBacklog);
            && SLOW_START in values && values[SLOW_START] == "0"
            && SYNCOOKIES in values && values[SYNCOOKIES] == "1"
  {
    hide FormatInt;
  }

  lemma LimitValues(buffer: nat, somaxconn: int, synBacklog: int)
    ensures var values := Recommend.Values(buffer, somaxconn, synBacklog);
            && RMEM_MAX in values && values[RMEM_MAX] == FormatInt(buffer)
            && WMEM_MAX in values && values[WMEM_MAX] == FormatInt(buffer)
  {
    hide FormatInt;
  }

  lemma TripleValues(buffer: nat, somaxconn: int, synBacklog: int)
    ensures var values := Recommend.Values(buffer, somaxconn, synBacklog);
            && TCP_RMEM in values && values[TCP_RMEM] == "4096 87380 " + FormatInt(buffer)
            && TCP_WMEM in values && values[TCP_WMEM] == "4096 65536 " + FormatInt(buffer)
  {
    hide FormatInt;
  }

  // Every recommendation asks for fq and bbr and sets the five switches.
  lemma SwitchesRecommended(profile: Profile, input: Input)
    requires Recommended(profile, input).Ok?
    ensures var values := Recommended(profile, input).value.sysctls;
            && values.Keys == MANAGED_SYSCTLS
            && Holding(values, "net.core.default_qdisc", "fq") && Holding(values, "net.ipv4.tcp_congestion_control", "bbr")
            && Holding(values, "net.ipv4.tcp_fastopen", "3") && Holding(values, "net.ipv4.tcp_moderate_rcvbuf", "1")
            && Holding(values, "net.ipv4.tcp_mtu_probing", "1") && Holding(values, "net.ipv4.tcp_slow_start_after_idle", "0")
            && Holding(values, "net.ipv4.tcp_syncookies", "1")
  {
    hide Recommend.Values, BufferMax, MaxParsed, MANAGED_SYSCTLS;
    var rec := Recommended(profile, input).value;
    BufferIsPositive(profile.memoryMB, input);
    var s := MaxParsed(Lookup(profile.sysctls, SOMAXCONN), MINIMUM_BACKLOG);
    var y := MaxParsed(Lookup(profile.sysctls, SYN_BACKLOG), MINIMUM_BACKLOG);
    QueueingValues(rec.bufferMaxBytes, s, y);
    SwitchValues(rec.bufferMaxBytes, s, y);
    MoreSwitchValues(rec.bufferMaxBytes, s, y);
    RecommendationRoundTrip(profile, input);
  }

  predicate Holding(values: Values, key: string, value: string) {
    key in values && values[key] == value
  }

  // Three numbers, the first two given, in non-decreasing order.
  predicate Triple(text: string, first: int, second: int, third: int) {
    var fields := Fields(text);
    && |fields| == 3 && first <= second <= third
    && ParseInt(fields[0]) == Some(first) && ParseInt(fields[1]) == Some(second) && ParseInt(fields[2]) == Some(third)
  }

  lemma SmallestSize()
    ensures ParseInt("4096") == Some(4096) && Word("4096")
  {
    hide ParseInt, Word;
    OneDigit(4, "4");
    NumberText(40, 4, 0, "4", "40");
    NumberText(409, 40, 9, "40", "409");
    NumberText(4096, 409, 6, "409", "4096");
  }

  lemma InitialReceiveSize()
    ensures ParseInt("87380") == Some(87380) && Word("87380")
  {
    hide ParseInt, Word;
    OneDigit(8, "8");
    NumberText(87, 8, 7, "8", "87");
    NumberText(873, 87, 3, "87", "873");
    NumberText(8738, 873, 8, "873", "8738");
    NumberText(87380, 8738, 0, "8738", "87380");
  }

  lemma InitialSendSize()
    ensures ParseInt("65536") == Some(65536) && Word("65536")
  {
    hide ParseInt, Word;
    OneDigit(6, "6");
    NumberText(65, 6, 5, "6", "65");
    NumberText(655, 65, 5, "65", "655");
    NumberText(6553, 655, 3, "655", "6553");
    NumberText(65536, 6553, 6, "6553", "65536");
  }

  lemma OneDigit(n: nat, text: string)
    requires n < 10 && text == [Digit(n)]
    ensures FormatNat(n) == text
  {
  }

  // One more digit.
  lemma NumberText(n: nat, tens: nat, last: nat, head: string, text: string)
    requires last < 10 && n == 10 * tens + last && n >= 10 && n <= MAX_INT64
    requires FormatNat(tens) == head && text == head + [Digit(last)]
    ensures FormatNat(n) == text && ParseInt(text) == Some(n) && Word(text)
  {
    assert n / 10 == tens && n % 10 == last;
    ParseOfFormat(n);
    FormatNatIsWord(n);
  }

  lemma TripleParses(a: string, first: int, b: string, second: int, n: nat)
    requires Word(a) && Word(b) && ParseInt(a) == Some(first) && ParseInt(b) == Some(second)
    requires first <= second <= n <= MAX_INT64
    ensures Triple(a + " " + b + " " + FormatInt(n), first, second, n)
  {
    hide ParseInt, FormatNat;
    var c := FormatInt(n);
    FormatNatIsWord(n);
    ParseOfFormat(n);
    var words := [a, b, c];
    FieldsOfJoin(words);
    assert words[1..] == [b, c] && words[1..][1..] == [c];
    assert Join([c]) == c;
    assert Join([b, c]) == b + " " + c;
    assert Join(words) == a + " " + (b + " " + c);
    assert a + " " + (b + " " + c) == a + " " + b + " " + c;
  }

  // Both limits are the buffer maximum, and it is the largest of the three sizes of either
  // socket buffer, after the fixed smallest and initial ones.
  lemma BuffersRecommended(profile: Profile, input: Input)
    requires Recommended(profile, input).Ok?
    ensures var values, buffer := Recommended(profile, input).value.sysctls, BufferMax(profile.memoryMB, input);
            && Recommended(profile, input).value.bufferMaxBytes == buffer
            && "net.core.rmem_max" in values && ParseInt(values["net.core.rmem_max"]) == Some(buffer)
            && "net.core.wmem_max" in values && ParseInt(values["net.core.wmem_max"]) == Some(buffer)
            && "net.ipv4.tcp_rmem" in values && Triple(values["net.ipv4.tcp_rmem"], 4096, 87380, buffer)
            && "net.ipv4.tcp_wmem" in values && Triple(values["net.ipv4.tcp_wmem"], 4096, 65536, buffer)
  {
    hide Recommend.Values, BufferMax, MaxParsed, ParseInt, FormatInt, Triple;
    var buffer := BufferMax(profile.memoryMB, input);
    BufferIsPositive(profile.memoryMB, input);
    BufferInRange(profile.memoryMB, input);
    var s := MaxParsed(Lookup(profile.sysctls, SOMAXCONN), MINIMUM_BACKLOG);
    var y := MaxParsed(Lookup(profile.sysctls, SYN_BACKLOG), MINIMUM_BACKLOG);
    LimitValues(buffer, s, y);
    TripleValues(buffer, s, y);
    ParseOfFormat(buffer);
    SmallestSize();
    InitialReceiveSize();
    InitialSendSize();
    TripleParses("4096", 4096, "87380", 87380, buffer);
    TripleParses("4096", 4096, "65536", 65536, buffer);
    Spaced("87380", "4096 87380 ", buffer);
    Spaced("65536", "4096 65536 ", buffer);
  }

  lemma Spaced(second: string, text: string, buffer: nat)
    requires text == "4096 " + second + " "
    ensures "4096" + " " + second + " " + FormatInt(buffer) == text + FormatInt(buffer)
  {
    hide FormatInt;
    assert "4096" + " " == "4096 ";
    assert "4096" + " " + second + " " == text;
  }

  lemma BufferInRange(memoryMB: int, input: Input)
    requires memoryMB >= 0
    ensures MINIMUM_BUFFER <= BufferMax(memoryMB, input) <= ABSOLUTE_MAX
  {
    CapExactIff(memoryMB);
  }

  // Neither backlog falls below 8192 or what it was, and neither rises without need.
  lemma BacklogsRecommended(profile: Profile, input: Input)
    requires Recommended(profile, input).Ok?
    ensures var values := Recommended(profile, input).value.sysctls;
            && SOMAXCONN == "net.core.somaxconn" && SYN_BACKLOG == "net.ipv4.tcp_max_syn_backlog"
            && SOMAXCONN in values && Backlog(values[SOMAXCONN], Lookup(profile.sysctls, SOMAXCONN))
            && SYN_BACKLOG in values && Backlog(values[SYN_BACKLOG], Lookup(profile.sysctls, SYN_BACKLOG))
  {
    hide Recommend.Values, BufferMax, ParseInt, FormatInt;
    var s, y := Lookup(profile.sysctls, SOMAXCONN), Lookup(profile.sysctls, SYN_BACKLOG);
    BacklogLookups(BufferMax(profile.memoryMB, input), MaxParsed(s, MINIMUM_BACKLOG), MaxParsed(y, MINIMUM_BACKLOG));
    BacklogKeys(BufferMax(profile.memoryMB, input), MaxParsed(s, MINIMUM_BACKLOG), MaxParsed(y, MINIMUM_BACKLOG));
    MaxParsedFixpoint(s, MINIMUM_BACKLOG);
    MaxParsedFixpoint(y, MINIMUM_BACKLOG);
    ParseOfFormat(MaxParsed(s, MINIMUM_BACKLOG));
    ParseOfFormat(MaxParsed(y, MINIMUM_BACKLOG));
  }

  lemma BacklogKeys(buffer: int, somaxconn: int, synBacklog: int)
    ensures SOMAXCONN in Recommend.Values(buffer, somaxconn, synBacklog)
    ensures SYN_BACKLOG in Recommend.Values(buffer, somaxconn, synBacklog)
  {
  }

  predicate Backlog(recommended: string, current: string) {
    && ParseInt(recommended).Some? && ParseInt(recommended).value >= 8192
    && (ParseInt(current).Some? ==> ParseInt(recommended).value >= ParseInt(current).value)
    && (ParseInt(recommended).value == 8192 || ParseInt(current) == ParseInt(recommended))
  }

  // What was asked, the measured memory, and the two warnings.
  lemma RecommendationRecords(profile: Profile, input: Input)
    requires Recommended(profile, input).Ok?
    ensures var rec := Recommended(profile, input).value;
            && rec.input == Input(input.bandwidthMbps, input.rttMillis, "proxy") && rec.memoryMB == profile.memoryMB
            && (SPEED_WARNING in rec.warnings <==> 0 < profile.interfaceSpeedMbps < input.bandwidthMbps)
            && (QDISC_WARNING in rec.warnings <==> !profile.fqReady)
            && (rec.capReason == CAPPED_REASON <==> rec.targetBufferBytes > rec.memoryCapBytes)
            && rec.bdpBytes == input.bandwidthMbps * input.rttMillis * 125
            && rec.targetBufferBytes == (if 2 * rec.bdpBytes + 0x20_0000 < 0x40_0000 then 0x40_0000 else 2 * rec.bdpBytes + 0x20_0000)
            && rec.memoryCapBytes == MemoryCap(profile.memoryMB)
            && rec.bufferMaxBytes == (if rec.targetBufferBytes > rec.memoryCapBytes then rec.memoryCapBytes else rec.targetBufferBytes)
  {
    hide Recommend.Values, MaxParsed, MemoryCap;
    DifferentTexts();
  }

  lemma DifferentTexts()
    ensures SPEED_WARNING != QDISC_WARNING && CAPPED_REASON != HEADROOM_REASON
  {
    assert |SPEED_WARNING| < |QDISC_WARNING|;
    assert |HEADROOM_REASON| < |CAPPED_REASON|;
  }

  // ---------- and what is then in force ----------

  // Fair queueing, bbr and the switches in force; the two files in place, for the kernel to
  // load at every boot.
  ghost predicate Tuned(cfg: Paths, h: State) {
    && KeyAgrees(h.sysctls, DEFAULT_QDISC, "fq") && KeyAgrees(h.sysctls, CONGESTION, "bbr")
    && KeyAgrees(h.sysctls, FASTOPEN, "3") && KeyAgrees(h.sysctls, MODERATE_RCVBUF, "1")
    && KeyAgrees(h.sysctls, MTU_PROBING, "1") && KeyAgrees(h.sysctls, SLOW_START, "0") && KeyAgrees(h.sysctls, SYNCOOKIES, "1")
    && cfg.modulesFile in h.files && h.files[cfg.modulesFile].Regular? && h.files[cfg.modulesFile].data == "tcp_bbr\n"
    && cfg.sysctlFile in h.files && h.files[cfg.sysctlFile].Regular?
    && Parsed(h.files[cfg.sysctlFile].data).Some?
    && var values := Parsed(h.files[cfg.sysctlFile].data).value;
       Holding(values, DEFAULT_QDISC, "fq") && Holding(values, CONGESTION, "bbr")
  }

  // A host that has every value of a recommendation and both files has been tuned.
  lemma InForce(cfg: Paths, profile: Profile, input: Input, h: State)
    requires Recommended(profile, input).Ok?
    requires var rec := Recommended(profile, input).value;
             && (forall key | key in rec.sysctls :: KeyAgrees(h.sysctls, key, rec.sysctls[key]))
             && cfg.sysctlFile in h.files && h.files[cfg.sysctlFile].Regular?
             && h.files[cfg.sysctlFile].data == Rendered(rec)
             && cfg.modulesFile in h.files && h.files[cfg.modulesFile].Regular?
             && h.files[cfg.modulesFile].data == MODULES_CONTENT
    ensures Tuned(cfg, h)
  {
    hide Recommended, Rendered, Parsed, KeyAgrees, Renderable, MANAGED_SYSCTLS, AssignedKeys;
    SwitchesRecommended(profile, input);
    RecommendationRoundTrip(profile, input);
  }

  // Whatever else happens in between, an Apply of a recommended plan that reports no error
  // leaves a tuned host, both files with mode 0644.
  lemma AppliedIsTuned(cfg: Paths, profile: Profile, input: Input, current: Values, b: State, world: nat -> Answer, t: nat, n: nat)
    requires Distinct(cfg) && Recommended(profile, input).Ok?
    requires InRange(Modprobe(PlanOf(current, Recommended(profile, input).value)))
    requires var m := Exec(cfg, b, Modprobe(PlanOf(current, Recommended(profile, input).value)), world, t, n);
             m.proc.Finished? && m.proc.report.NoError()
    ensures var h := Exec(cfg, b, Modprobe(PlanOf(current, Recommended(profile, input).value)), world, t, n).host;
            && Tuned(cfg, h)
            && h.files[cfg.sysctlFile].mode == 0x1A4 && h.files[cfg.modulesFile].mode == 0x1A4
  {
    hide Recommended, Rendered, Exec, Tuned, KeyAgrees, MANAGED_SYSCTLS, AllowlistTest, PutBack, Renderable, Parsed,
         AssignedKeys, InRange;
    var rec := Recommended(profile, input).value;
    RecommendationRoundTrip(profile, input);
    AllowlistTestIff(rec.sysctls);
    ApplyAllOrNothing(cfg, PlanOf(current, rec), b, world, t, n);
    InForce(cfg, profile, input, Exec(cfg, b, Modprobe(PlanOf(current, rec)), world, t, n).host);
  }
}
