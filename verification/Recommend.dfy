/**
 The recommendation arithmetic: 64-bit saturating products, the memory cap whose
 product can wrap, and the thirteen recommended values.
 */
module Recommend {
  import opened Wrappers
  import opened Decimal

  const MIB: int := 1024 * 1024
  const MINIMUM_BUFFER: int := 4 * MIB
  const ABSOLUTE_MAX: int := 256 * MIB
  const MINIMUM_BACKLOG: int := 8192

  const DEFAULT_QDISC := "net.core.default_qdisc"
  const RMEM_MAX := "net.core.rmem_max"
  const SOMAXCONN := "net.core.somaxconn"
  const WMEM_MAX := "net.core.wmem_max"
  const CONGESTION := "net.ipv4.tcp_congestion_control"
  const FASTOPEN := "net.ipv4.tcp_fastopen"
  const SYN_BACKLOG := "net.ipv4.tcp_max_syn_backlog"
  const MODERATE_RCVBUF := "net.ipv4.tcp_moderate_rcvbuf"
  const MTU_PROBING := "net.ipv4.tcp_mtu_probing"
  const TCP_RMEM := "net.ipv4.tcp_rmem"
  const SLOW_START := "net.ipv4.tcp_slow_start_after_idle"
  const SYNCOOKIES := "net.ipv4.tcp_syncookies"
  const TCP_WMEM := "net.ipv4.tcp_wmem"

  datatype Input = Input(bandwidthMbps: int, rttMillis: int, role: string)

  datatype Profile = Profile(
    memoryMB: int, interfaceSpeedMbps: int, sysctls: map<string, string>,
    available: seq<string>, fqReady: bool)

  datatype Recommendation = Recommendation(
    input: Input, memoryMB: int, bdpBytes: int, targetBufferBytes: int, memoryCapBytes: int,
    bufferMaxBytes: int, capReason: string, sysctls: map<string, string>, warnings: seq<string>)

  datatype Refusal = BadBandwidth | BadRTT | BadRole | TooLittleMemory

  function Min(a: int, b: int): int { if a <= b then a else b }

  function Max(a: int, b: int): int { if a >= b then a else b }

  function Lookup(m: map<string, string>, key: string): string {
    if key in m then m[key] else ""
  }

  // ---------- 64-bit arithmetic ----------

  // Two's complement wrap-around of a 64-bit product.
  function Wrap64(n: int): (w: int)
    ensures IsInt64(w)
  {
    var low := n % 0x1_0000_0000_0000_0000;
    if low <= MAX_INT64 then low else low - 0x1_0000_0000_0000_0000
  }

  // Division that truncates toward zero.
  function Quotient(a: int, b: int): int
    requires b > 0
  {
    if a >= 0 then a / b else -((-a) / b)
  }

  function Product(values: seq<int>): int {
    if values == [] then 1 else Product(values[..|values| - 1]) * values[|values| - 1]
  }

  lemma {:induction false} ProductGrows(values: seq<int>, i: nat)
    requires i <= |values| && forall j | 0 <= j < |values| :: values[j] > 0
    ensures 1 <= Product(values[..i]) <= Product(values)
    decreases |values|
  {
    if i == |values| {
      assert values[..i] == values;
      if values != [] {
        ProductGrows(values[..|values| - 1], |values| - 1);
        var p, v := Product(values[..|values| - 1]), values[|values| - 1];
        assert values[..|values| - 1][..|values| - 1] == values[..|values| - 1];
        assert p >= 1 && v >= 1;
        assert p * v >= 1;
      }
    } else {
      var front := values[..|values| - 1];
      ProductGrows(front, i);
      assert front[..i] == values[..i];
      var p, v := Product(front), values[|values| - 1];
      assert p * v >= p;
    }
  }

  // Past the guard, the next product leaves the 64-bit range; before it, it does not.
  lemma SaturationGuard(p: int, v: int)
    requires p >= 1 && v >= 1
    ensures p > MAX_INT64 / v <==> p * v > MAX_INT64
  {
    var q := MAX_INT64 / v;
    assert q * v <= MAX_INT64 < (q + 1) * v;
    if p > q {
      assert p * v >= (q + 1) * v;
    } else {
      assert p * v <= q * v;
    }
  }

  method SaturatingProduct(values: seq<int>) returns (result: int)
    requires forall i | 0 <= i < |values| :: IsInt64(values[i])
    ensures IsInt64(result)
    ensures (forall i | 0 <= i < |values| :: values[i] > 0) ==> result == Min(MAX_INT64, Product(values))
  {
    result := 1;
    assert values[..0] == [];
    for i := 0 to |values|
      invariant IsInt64(result)
      invariant (forall j | 0 <= j < |values| :: values[j] > 0) ==> result == Product(values[..i]) >= 1
    {
      var value := values[i];
      assert values[..i + 1][..i] == values[..i];
      if (forall j | 0 <= j < |values| :: values[j] > 0) {
        ProductGrows(values, i + 1);
        SaturationGuard(result, value);
      }
      if value > 0 && result > MAX_INT64 / value {
        return MAX_INT64;
      }
      result := Wrap64(result * value);
    }
    assert values[..|values|] == values;
  }

  function SaturatingAdd(a: int, b: int): int
    requires IsInt64(a) && IsInt64(b)
  {
    if b > 0 && a > MAX_INT64 - b then MAX_INT64 else Wrap64(a + b)
  }

  function MaxParsed(value: string, minimum: int): int {
    match ParseInt(value)
    case None => minimum
    case Some(parsed) => if parsed < minimum then minimum else parsed
  }

  // A backlog never falls, and what was recommended once is recommended again
  // after a trip through the kernel's decimal text.
  lemma MaxParsedFixpoint(value: string, minimum: int)
    requires IsInt64(minimum)
    ensures IsInt64(MaxParsed(value, minimum)) && MaxParsed(value, minimum) >= minimum
    ensures ParseInt(value).Some? ==> MaxParsed(value, minimum) >= ParseInt(value).value
    ensures MaxParsed(FormatInt(MaxParsed(value, minimum)), minimum) == MaxParsed(value, minimum)
  {
    ParseOfFormat(MaxParsed(value, minimum));
  }

  // ---------- the memory cap ----------

  function Clamp(n: int): int {
    Min(Max(n, MINIMUM_BUFFER), ABSOLUTE_MAX)
  }

  // The documented cap: RAM / 32 between 4 MiB and 256 MiB.
  function DocumentedCap(memoryMB: int): int {
    Clamp(memoryMB * MIB / 32)
  }

  // What the 64-bit product leaves: only memoryMB modulo 2^44 survives the
  // wrap, and the upper half of that range turns negative.
  function MemoryCap(memoryMB: int): int {
    var low := memoryMB % 0x1000_0000_0000;
    if low < 0x800_0000_0000 then Clamp(low * 32768) else MINIMUM_BUFFER
  }

  lemma WrappedCap(memoryMB: int)
    ensures Clamp(Quotient(Wrap64(memoryMB * MIB), 32)) == MemoryCap(memoryMB)
  {
    var k, low := memoryMB / 0x1000_0000_0000, memoryMB % 0x1000_0000_0000;
    assert memoryMB == k * 0x1000_0000_0000 + low;
    var n := memoryMB * MIB;
    assert n == k * 0x1_0000_0000_0000_0000 + low * MIB;
    assert n % 0x1_0000_0000_0000_0000 == low * MIB;
    if low < 0x800_0000_0000 {
      assert Wrap64(n) == low * MIB;
      assert low * MIB / 32 == low * 32768;
    } else {
      assert Wrap64(n) == low * MIB - 0x1_0000_0000_0000_0000;
      assert Wrap64(n) < 0;
      assert Quotient(Wrap64(n), 32) <= 0;
    }
  }

  // The computed cap is the documented one exactly when the product does not
  // wrap, or wraps to something that still reaches 256 MiB.
  lemma CapExactIff(memoryMB: int)
    requires memoryMB >= 0
    ensures MemoryCap(memoryMB) == DocumentedCap(memoryMB) <==>
            memoryMB < 0x800_0000_0000 || 8192 <= memoryMB % 0x1000_0000_0000 < 0x800_0000_0000
    ensures MINIMUM_BUFFER <= MemoryCap(memoryMB) <= ABSOLUTE_MAX
  {
    assert memoryMB * MIB / 32 == memoryMB * 32768;
    if memoryMB < 0x800_0000_0000 {
      assert memoryMB % 0x1000_0000_0000 == memoryMB;
    }
  }

  // An amount of memory for which the product wraps and the cap collapses.
  lemma CapCollapses()
    ensures MemoryCap(0x800_0000_0000) == MINIMUM_BUFFER
    ensures DocumentedCap(0x800_0000_0000) == ABSOLUTE_MAX
  {
    assert 0x800_0000_0000 % 0x1000_0000_0000 == 0x800_0000_0000;
  }

  // ---------- the recommendation ----------

  function Bdp(input: Input): int {
    input.bandwidthMbps * input.rttMillis * 125
  }

  function Target(input: Input): int {
    Max(2 * Bdp(input) + 2 * MIB, MINIMUM_BUFFER)
  }

  function BufferMax(memoryMB: int, input: Input): int {
    Min(Target(input), MemoryCap(memoryMB))
  }

  // On memory below 2^43 MB the buffer is the documented formula, and there it
  // never shrinks when bandwidth, round-trip time or memory grow.
  lemma BufferFormula(memoryMB: int, input: Input)
    requires 0 <= memoryMB < 0x800_0000_0000
    ensures BufferMax(memoryMB, input) ==
            Min(Max(2 * (input.bandwidthMbps * input.rttMillis * 125) + 2 * MIB, 4 * MIB),
                Min(Max(memoryMB * MIB / 32, 4 * MIB), 256 * MIB))
  {
    CapExactIff(memoryMB);
  }

  lemma BufferMonotone(m1: int, i1: Input, m2: int, i2: Input)
    requires 0 <= m1 <= m2 < 0x800_0000_0000
    requires 0 <= i1.bandwidthMbps <= i2.bandwidthMbps && 0 <= i1.rttMillis <= i2.rttMillis
    ensures BufferMax(m1, i1) <= BufferMax(m2, i2)
  {
    ProductMonotone(i1.bandwidthMbps, i1.rttMillis, i2.bandwidthMbps, i2.rttMillis);
    CapMonotone(m1, m2);
  }

  lemma ProductMonotone(a: int, b: int, c: int, d: int)
    requires 0 <= a <= c && 0 <= b <= d
    ensures a * b <= c * d
  {
    assert a * b <= c * b;
    assert c * b <= c * d;
  }

  lemma CapMonotone(m1: int, m2: int)
    requires 0 <= m1 <= m2 < 0x800_0000_0000
    ensures MemoryCap(m1) <= MemoryCap(m2)
  {
    assert m1 % 0x1000_0000_0000 == m1 && m2 % 0x1000_0000_0000 == m2;
  }

  function WithRole(input: Input): Input {
    if input.role == "" then input.(role := "proxy") else input
  }

  function Values(buffer: int, somaxconn: int, synBacklog: int): map<string, string> {
    map[
      DEFAULT_QDISC := "fq",
      RMEM_MAX := FormatInt(buffer),
      SOMAXCONN := FormatInt(somaxconn),
      WMEM_MAX := FormatInt(buffer),
      CONGESTION := "bbr",
      FASTOPEN := "3",
      SYN_BACKLOG := FormatInt(synBacklog),
      MODERATE_RCVBUF := "1",
      MTU_PROBING := "1",
      TCP_RMEM := "4096 87380 " + FormatInt(buffer),
      SLOW_START := "0",
      SYNCOOKIES := "1",
      TCP_WMEM := "4096 65536 " + FormatInt(buffer)
    ]
  }

  const HEADROOM_REASON := "2 x BDP + 2 MiB headroom"
  const CAPPED_REASON := "capped by proxy memory budget (RAM / 32)"
  const SPEED_WARNING := "requested bandwidth exceeds the reported interface speed"
  const QDISC_WARNING := "the active qdisc is not fq-ready; sshappy-tune will not rebuild a live qdisc"

  function Warnings(profile: Profile, input: Input): seq<string> {
    (if profile.interfaceSpeedMbps > 0 && input.bandwidthMbps > profile.interfaceSpeedMbps
     then [SPEED_WARNING] else []) +
    (if profile.fqReady then [] else [QDISC_WARNING])
  }

  // The reference recommendation, in unbounded arithmetic.
  function Recommended(profile: Profile, input: Input): Result<Recommendation, Refusal> {
    if !(1 <= input.bandwidthMbps <= 100000) then Err(BadBandwidth)
    else if !(1 <= input.rttMillis <= 2000) then Err(BadRTT)
    else if input.role != "" && input.role != "proxy" then Err(BadRole)
    else if profile.memoryMB < 128 then Err(TooLittleMemory)
    else
      var buffer := BufferMax(profile.memoryMB, input);
      Ok(Recommendation(
           WithRole(input), profile.memoryMB, Bdp(input), Target(input), MemoryCap(profile.memoryMB), buffer,
           if Target(input) > MemoryCap(profile.memoryMB) then CAPPED_REASON else HEADROOM_REASON,
           Values(buffer,
                  MaxParsed(Lookup(profile.sysctls, SOMAXCONN), MINIMUM_BACKLOG),
                  MaxParsed(Lookup(profile.sysctls, SYN_BACKLOG), MINIMUM_BACKLOG)),
           Warnings(profile, input)))
  }

  lemma ProductOfThree(a: int, b: int, c: int)
    ensures Product([a, b, c]) == a * b * c
    ensures Product([a, b]) == a * b
  {
    assert [a][..0] == [];
    assert Product([a]) == a;
    assert [a, b][..1] == [a];
    assert Product([a, b]) == Product([a]) * b;
    assert [a, b, c][..2] == [a, b];
    assert Product([a, b, c]) == Product([a, b]) * c;
  }

  // The 64-bit arithmetic of one recommendation meets the reference formulas.
  method Sizes(memoryMB: int, input: Input)
    returns (bdp: int, target: int, memoryCap: int, bufferMax: int, reason: string)
    requires 1 <= input.bandwidthMbps <= 100000 && 1 <= input.rttMillis <= 2000 && IsInt64(memoryMB)
    ensures bdp == Bdp(input) && target == Target(input) && memoryCap == MemoryCap(memoryMB)
    ensures bufferMax == BufferMax(memoryMB, input)
    ensures reason == if Target(input) > MemoryCap(memoryMB) then CAPPED_REASON else HEADROOM_REASON
  {
    bdp := SaturatingProduct([input.bandwidthMbps, input.rttMillis, 125]);
    BdpInRange(input, bdp);
    var doubled := SaturatingProduct([bdp, 2]);
    TargetInRange(input, bdp, doubled);
    target := SaturatingAdd(doubled, 2 * MIB);
    if target < MINIMUM_BUFFER { target := MINIMUM_BUFFER; }
    memoryCap := Quotient(Wrap64(memoryMB * MIB), 32);
    WrappedCap(memoryMB);
    if memoryCap < MINIMUM_BUFFER { memoryCap := MINIMUM_BUFFER; }
    if memoryCap > ABSOLUTE_MAX { memoryCap := ABSOLUTE_MAX; }
    bufferMax, reason := target, HEADROOM_REASON;
    if bufferMax > memoryCap { bufferMax, reason := memoryCap, CAPPED_REASON; }
  }

  // Computes with 64-bit integers; meets the reference recommendation.
  method Recommend(profile: Profile, input0: Input) returns (r: Result<Recommendation, Refusal>)
    requires IsInt64(input0.bandwidthMbps) && IsInt64(input0.rttMillis) && IsInt64(profile.memoryMB)
    ensures r == Recommended(profile, input0)
  {
    var input := input0;
    if input.bandwidthMbps < 1 || input.bandwidthMbps > 100000 { return Err(BadBandwidth); }
    if input.rttMillis < 1 || input.rttMillis > 2000 { return Err(BadRTT); }
    if input.role == "" { input := input.(role := "proxy"); }
    if input.role != "proxy" { return Err(BadRole); }
    if profile.memoryMB < 128 { return Err(TooLittleMemory); }
    var bdp, target, memoryCap, bufferMax, reason := Sizes(profile.memoryMB, input);
    var somaxconn := MaxParsed(Lookup(profile.sysctls, SOMAXCONN), MINIMUM_BACKLOG);
    var synBacklog := MaxParsed(Lookup(profile.sysctls, SYN_BACKLOG), MINIMUM_BACKLOG);
    var warnings := [];
    if profile.interfaceSpeedMbps > 0 && input.bandwidthMbps > profile.interfaceSpeedMbps {
      warnings := warnings + [SPEED_WARNING];
    }
    if !profile.fqReady { warnings := warnings + [QDISC_WARNING]; }
    assert warnings == Warnings(profile, input0);
    return Ok(Recommendation(input, profile.memoryMB, bdp, target, memoryCap, bufferMax, reason,
                             Values(bufferMax, somaxconn, synBacklog), warnings));
  }

  lemma BdpInRange(input: Input, bdp: int)
    requires 1 <= input.bandwidthMbps <= 100000 && 1 <= input.rttMillis <= 2000
    requires bdp == Min(MAX_INT64, Product([input.bandwidthMbps, input.rttMillis, 125]))
    ensures bdp == Bdp(input) && 125 <= bdp <= 25_000_000_000
  {
    hide Product;
    ProductOfThree(input.bandwidthMbps, input.rttMillis, 125);
    ProductMonotone(1, 1, input.bandwidthMbps, input.rttMillis);
    ProductMonotone(input.bandwidthMbps, input.rttMillis, 100000, 2000);
  }

  lemma TargetInRange(input: Input, bdp: int, doubled: int)
    requires bdp == Bdp(input) && 125 <= bdp <= 25_000_000_000
    requires doubled == Min(MAX_INT64, Product([bdp, 2]))
    ensures IsInt64(doubled) && SaturatingAdd(doubled, 2 * MIB) == 2 * Bdp(input) + 2 * MIB
  {
    hide Product;
    ProductOfThree(bdp, 2, 1);
  }
}
