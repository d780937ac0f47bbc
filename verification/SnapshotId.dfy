/**
 Snapshot identifiers: the time layout that makes them, the pattern that admits
 them, and the `latest` pointer that is written with a line feed and read trimmed.
 */
module SnapshotId {
  import opened Wrappers
  import opened Text
  import opened Decimal

  datatype RawStamp = RawStamp(year: nat, month: nat, day: nat, hour: nat, minute: nat, second: nat, nanos: nat)

  // A calendar time after year 0; the year is not bounded.
  type Stamp = t: RawStamp |
    t.month < 100 && t.day < 100 && t.hour < 100 && t.minute < 100 && t.second < 100 && t.nanos < 1_000_000_000
    witness RawStamp(2026, 1, 1, 0, 0, 0, 0)

  // Four digits at least; a longer year is printed in full.
  function YearText(year: nat): string {
    if year < 10000 then Pad(year, 4) else FormatNat(year)
  }

  function Tail(t: Stamp): (s: string)
    ensures |s| == 22
  {
    Pad(t.month, 2) + Pad(t.day, 2) + "T" + Pad(t.hour, 2) + Pad(t.minute, 2) + Pad(t.second, 2) +
    "." + Pad(t.nanos, 9) + "Z"
  }

  function FormatId(t: Stamp): string {
    YearText(t.year) + Tail(t)
  }

  lemma IdNotEmpty(t: Stamp)
    ensures FormatId(t) != ""
  {
  }

  // ^[0-9]{8}T[0-9]{6}\.[0-9]{9}Z$
  predicate MatchesPattern(id: string) {
    && |id| == 26
    && id[8] == 'T' && id[15] == '.' && id[25] == 'Z'
    && forall i | 0 <= i < 26 && i != 8 && i != 15 && i != 25 :: IsDigit(id[i])
  }

  lemma TailShape(t: Stamp)
    ensures var s := Tail(t);
            && s[4] == 'T' && s[11] == '.' && s[21] == 'Z'
            && forall i | 0 <= i < 22 && i != 4 && i != 11 && i != 21 :: IsDigit(s[i])
  {
    var a := Pad(t.month, 2) + Pad(t.day, 2);
    var b := Pad(t.hour, 2) + Pad(t.minute, 2) + Pad(t.second, 2);
    assert Tail(t) == a + "T" + b + "." + Pad(t.nanos, 9) + "Z";
    assert AllDigits(a) && AllDigits(b);
  }

  lemma YearTextShape(year: nat)
    ensures AllDigits(YearText(year))
    ensures |YearText(year)| == 4 <==> year < 10000
  {
    if year >= 10000 {
      FormatNatLength(year, 4);
      assert Pow10(4) == 10 * Pow10(3) && Pow10(3) == 10 * Pow10(2) && Pow10(2) == 10 * Pow10(1);
    }
  }

  // The tool accepts the identifiers it makes exactly up to the year 9999.
  lemma IdAcceptedIff(t: Stamp)
    ensures MatchesPattern(FormatId(t)) <==> t.year <= 9999
  {
    YearTextShape(t.year);
    var id := FormatId(t);
    if t.year <= 9999 {
      TailShape(t);
      forall i | 0 <= i < 26 && i != 8 && i != 15 && i != 25 ensures IsDigit(id[i]) {
        if i >= 4 { assert id[i] == Tail(t)[i - 4]; }
      }
    }
  }

  lemma ParsePad(n: nat, width: nat)
    requires 0 < width && n < Pow10(width) && n <= MAX_INT64
    ensures ParseInt(Pad(n, width)) == Some(n)
  {
    ValueOfPad(n, width);
    assert IsDigit(Pad(n, width)[0]);
  }

  // Which digits say what: year, month and day, then hour, minute and second, then nanoseconds.
  lemma IdLayout(t: Stamp)
    requires t.year <= 9999
    ensures var id := FormatId(t);
            && |id| == 26
            && ParseInt(id[0..4]) == Some(t.year) && ParseInt(id[4..6]) == Some(t.month) && ParseInt(id[6..8]) == Some(t.day)
            && ParseInt(id[9..11]) == Some(t.hour) && ParseInt(id[11..13]) == Some(t.minute)
            && ParseInt(id[13..15]) == Some(t.second) && ParseInt(id[16..25]) == Some(t.nanos)
  {
    hide Pad, ParseInt;
    SmallPowers();
    var id, s := FormatId(t), Tail(t);
    assert id == Pad(t.year, 4) + s;
    assert id[0..4] == Pad(t.year, 4);
    assert id[4..6] == s[0..2] == Pad(t.month, 2);
    assert id[6..8] == s[2..4] == Pad(t.day, 2);
    assert id[9..11] == s[5..7] == Pad(t.hour, 2);
    assert id[11..13] == s[7..9] == Pad(t.minute, 2);
    assert id[13..15] == s[9..11] == Pad(t.second, 2);
    assert id[16..25] == s[12..21] == Pad(t.nanos, 9);
    ParsePad(t.year, 4);
    ParsePad(t.month, 2);
    ParsePad(t.day, 2);
    ParsePad(t.hour, 2);
    ParsePad(t.minute, 2);
    ParsePad(t.second, 2);
    ParsePad(t.nanos, 9);
  }

  lemma {:induction false} PadOfValue(s: string)
    requires AllDigits(s)
    ensures ValueOf(s) < Pow10(|s|) && Pad(ValueOf(s), |s|) == s
  {
    if s != "" {
      var t := s[..|s| - 1];
      PadOfValue(t);
      assert ValueOf(s) / 10 == ValueOf(t) && ValueOf(s) % 10 == DigitValue(s[|s| - 1]);
      assert s == t + [s[|s| - 1]];
    }
  }

  // The digits of an accepted identifier, put back together.
  lemma PatternParts(id: string)
    requires MatchesPattern(id)
    ensures AllDigits(id[0..4]) && AllDigits(id[4..6]) && AllDigits(id[6..8]) && AllDigits(id[9..11])
            && AllDigits(id[11..13]) && AllDigits(id[13..15]) && AllDigits(id[16..25])
    ensures id == id[0..4] + (id[4..6] + id[6..8] + "T" + id[9..11] + id[11..13] + id[13..15] + "." + id[16..25] + "Z")
  {
  }

  // Nothing else is accepted: the pattern admits exactly what some time up to the year 9999 prints.
  lemma AcceptedIffPrinted(id: string)
    ensures MatchesPattern(id) <==> exists t: Stamp :: t.year <= 9999 && FormatId(t) == id
  {
    hide FormatId;
    if MatchesPattern(id) {
      var t := StampOf(id);
      assert t.year <= 9999 && FormatId(t) == id;
    }
    forall t: Stamp | t.year <= 9999 && FormatId(t) == id ensures MatchesPattern(id) { IdAcceptedIff(t); }
  }

  lemma StampOf(id: string) returns (t: Stamp)
    requires MatchesPattern(id)
    ensures t.year <= 9999 && FormatId(t) == id
  {
    assert |id| == 26;
    hide Pad, ValueOf, MatchesPattern;
    SmallPowers();
    PatternParts(id);
    PadOfValue(id[0..4]);
    PadOfValue(id[4..6]);
    PadOfValue(id[6..8]);
    PadOfValue(id[9..11]);
    PadOfValue(id[11..13]);
    PadOfValue(id[13..15]);
    PadOfValue(id[16..25]);
    t := RawStamp(ValueOf(id[0..4]), ValueOf(id[4..6]), ValueOf(id[6..8]), ValueOf(id[9..11]), ValueOf(id[11..13]),
                  ValueOf(id[13..15]), ValueOf(id[16..25]));
  }

  lemma PadInjective(a: nat, b: nat, width: nat)
    requires a < Pow10(width) && b < Pow10(width) && Pad(a, width) == Pad(b, width)
    ensures a == b
  {
    ValueOfPad(a, width);
    ValueOfPad(b, width);
  }

  lemma SmallPowers()
    ensures Pow10(2) == 100 && Pow10(4) == 10000 && Pow10(9) == 1_000_000_000
  {
    assert Pow10(1) == 10 * Pow10(0);
    assert Pow10(2) == 10 * Pow10(1) && Pow10(3) == 10 * Pow10(2) && Pow10(4) == 10 * Pow10(3);
    assert Pow10(5) == 10 * Pow10(4) && Pow10(6) == 10 * Pow10(5) && Pow10(7) == 10 * Pow10(6);
    assert Pow10(8) == 10 * Pow10(7) && Pow10(9) == 10 * Pow10(8);
  }

  lemma TailInjective(a: Stamp, b: Stamp)
    requires Tail(a) == Tail(b)
    ensures a.(year := 0) == b.(year := 0)
  {
    hide Pad;
    SmallPowers();
    var s := Tail(a);
    assert s[0..2] == Pad(a.month, 2) == Pad(b.month, 2);
    assert s[2..4] == Pad(a.day, 2) == Pad(b.day, 2);
    assert s[5..7] == Pad(a.hour, 2) == Pad(b.hour, 2);
    assert s[7..9] == Pad(a.minute, 2) == Pad(b.minute, 2);
    assert s[9..11] == Pad(a.second, 2) == Pad(b.second, 2);
    assert s[12..21] == Pad(a.nanos, 9) == Pad(b.nanos, 9);
    PadInjective(a.month, b.month, 2);
    PadInjective(a.day, b.day, 2);
    PadInjective(a.hour, b.hour, 2);
    PadInjective(a.minute, b.minute, 2);
    PadInjective(a.second, b.second, 2);
    PadInjective(a.nanos, b.nanos, 9);
  }

  // Distinct times have distinct identifiers.
  lemma FormatIdInjective(a: Stamp, b: Stamp)
    requires FormatId(a) == FormatId(b)
    ensures a == b
  {
    var n := |YearText(a.year)|;
    assert n == |YearText(b.year)|;
    assert FormatId(a)[..n] == YearText(a.year) && FormatId(b)[..n] == YearText(b.year);
    assert FormatId(a)[n..] == Tail(a) && FormatId(b)[n..] == Tail(b);
    TailInjective(a, b);
    YearTextShape(a.year);
    YearTextShape(b.year);
    SmallPowers();
    if a.year < 10000 {
      PadInjective(a.year, b.year, 4);
    } else {
      FormatNatInjective(a.year, b.year);
    }
  }

  lemma IdHoldsNoSpace(t: Stamp)
    ensures Word(FormatId(t))
  {
    YearTextShape(t.year);
    TailShape(t);
    var id, n := FormatId(t), |YearText(t.year)|;
    forall i | 0 <= i < |id| ensures !IsSpace(id[i]) {
      if i < n {
        assert IsDigit(YearText(t.year)[i]);
      } else {
        assert id[i] == Tail(t)[i - n];
      }
    }
  }

  // ---------- the latest pointer ----------

  predicate EdgeSpace(c: char) {
    c == ' ' || c == '\n' || c == '\r' || c == '\t'
  }

  function DropEdgeLeft(s: string): string {
    if s != "" && EdgeSpace(s[0]) then DropEdgeLeft(s[1..]) else s
  }

  function DropEdgeRight(s: string): string {
    if s != "" && EdgeSpace(s[|s| - 1]) then DropEdgeRight(s[..|s| - 1]) else s
  }

  // What stringTrimSpace keeps: nothing at the edges, everything between.
  function TrimEdges(s: string): string {
    DropEdgeRight(DropEdgeLeft(s))
  }

  method StringTrimSpace(data: string) returns (r: string)
    ensures r == TrimEdges(data)
  {
    var start, end := 0, |data|;
    assert data[0..] == data;
    while start < end && EdgeSpace(data[start])
      invariant 0 <= start <= end == |data|
      invariant DropEdgeLeft(data) == DropEdgeLeft(data[start..])
    {
      assert data[start..][1..] == data[start + 1..];
      start := start + 1;
    }
    ghost var rest := data[start..];
    assert rest == DropEdgeLeft(data);
    assert rest[..end - start] == rest;
    while end > start && EdgeSpace(data[end - 1])
      invariant start <= end <= |data|
      invariant DropEdgeRight(rest) == DropEdgeRight(rest[..end - start])
    {
      assert rest[..end - start][..end - start - 1] == rest[..end - start - 1];
      end := end - 1;
    }
    r := data[start..end];
    assert r == rest[..end - start];
  }

  // What stays is a stretch of the text: around it there is nothing but the four edge
  // characters, and it neither begins nor ends with one.
  lemma {:induction false} TrimEdgesShape(s: string) returns (i: nat, j: nat)
    ensures i <= j <= |s| && TrimEdges(s) == s[i..j]
    ensures forall k | 0 <= k < |s| && !(i <= k < j) :: s[k] in {' ', '\n', '\r', '\t'}
    ensures i < j ==> s[i] !in {' ', '\n', '\r', '\t'} && s[j - 1] !in {' ', '\n', '\r', '\t'}
  {
    if s != "" && EdgeSpace(s[0]) {
      var a, b := TrimEdgesShape(s[1..]);
      assert s[1..][a..b] == s[a + 1..b + 1];
      assert forall k | 1 <= k < |s| :: s[k] == s[1..][k - 1];
      i, j := a + 1, b + 1;
    } else {
      i := 0;
      j := DropRightShape(s);
    }
  }

  lemma {:induction false} DropRightShape(s: string) returns (j: nat)
    ensures j <= |s| && DropEdgeRight(s) == s[..j]
    ensures forall k | j <= k < |s| :: s[k] in {' ', '\n', '\r', '\t'}
    ensures j > 0 ==> s[j - 1] !in {' ', '\n', '\r', '\t'}
  {
    if s != "" && EdgeSpace(s[|s| - 1]) {
      var t := s[..|s| - 1];
      j := DropRightShape(t);
      assert t[..j] == s[..j];
      assert forall k | 0 <= k < |t| :: t[k] == s[k];
    } else {
      j := |s|;
    }
  }

  // The pointer written for an identifier is read back as that identifier.
  lemma LatestRoundTrip(t: Stamp)
    ensures TrimEdges(FormatId(t) + "\n") == FormatId(t)
  {
    var id := FormatId(t);
    IdHoldsNoSpace(t);
    assert !IsSpace(id[0]) && !IsSpace(id[|id| - 1]);
    assert DropEdgeLeft(id + "\n") == id + "\n";
    assert (id + "\n")[..|id|] == id;
    assert DropEdgeRight(id + "\n") == DropEdgeRight(id);
  }
}
