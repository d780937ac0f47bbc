/**
 Plans and the text form of the managed sysctls: what is written, loaded by
 `sysctl -p`, compared byte for byte, and parsed back by verification.
 */
module Config {
  import opened Wrappers
  import opened Text
  import opened Decimal
  import opened Sorting
  import opened Recommend

  const MANAGED_SYSCTLS: set<string> := {
    DEFAULT_QDISC, RMEM_MAX, SOMAXCONN, WMEM_MAX, CONGESTION, FASTOPEN, SYN_BACKLOG,
    MODERATE_RCVBUF, MTU_PROBING, TCP_RMEM, SLOW_START, SYNCOOKIES, TCP_WMEM
  }

  const MODULES_CONTENT := "tcp_bbr\n"

  type Values = map<string, string>

  datatype Change = Change(current: string, recommended: string, changed: bool)

  datatype Plan = Plan(recommendation: Recommendation, changes: map<string, Change>, config: string, warnings: seq<string>)

  // ---------- the allowlist ----------

  // The tool's own test: right size, and nothing outside the allowlist.
  predicate AllowlistTest(values: Values) {
    |values| == |MANAGED_SYSCTLS| && forall key | key in values :: key in MANAGED_SYSCTLS
  }

  lemma {:induction false} SubsetOfEqualSize(a: set<string>, b: set<string>)
    requires a <= b && |a| == |b|
    ensures a == b
  {
    if a != {} {
      var x :| x in a;
      SubsetOfEqualSize(a - {x}, b - {x});
      assert a == (a - {x}) + {x} && b == (b - {x}) + {x};
    }
  }

  // A subset of equal size is the whole set: the test admits exactly the managed keys.
  lemma AllowlistTestIff(values: Values)
    ensures AllowlistTest(values) <==> values.Keys == MANAGED_SYSCTLS
  {
    assert |values| == |values.Keys|;
    if AllowlistTest(values) { SubsetOfEqualSize(values.Keys, MANAGED_SYSCTLS); }
  }

  // ---------- plans ----------

  function ChangeOf(current: Values, key: string, expected: string): Change {
    var actual := Normalize(Lookup(current, key));
    Change(actual, Normalize(expected), actual != Normalize(expected))
  }

  ghost function ChangesOn(current: Values, expected: Values, keys: set<string>): map<string, Change>
    requires keys <= expected.Keys
  {
    map key | key in keys :: ChangeOf(current, key, expected[key])
  }

  ghost function PlanOf(current: Values, rec: Recommendation): Plan {
    Plan(rec, ChangesOn(current, rec.sysctls, rec.sysctls.Keys), Rendered(rec), rec.warnings)
  }

  // Per key what is in force, what is wanted, and whether these differ up to white space.
  lemma PlanIs(current: Values, rec: Recommendation)
    ensures var plan := PlanOf(current, rec);
            && plan.recommendation == rec && plan.warnings == rec.warnings && plan.changes.Keys == rec.sysctls.Keys
            && forall key | key in rec.sysctls ::
                 && plan.changes[key].current == Normalize(if key in current then current[key] else "")
                 && plan.changes[key].recommended == Normalize(rec.sysctls[key])
                 && (plan.changes[key].changed <==> plan.changes[key].current != plan.changes[key].recommended)
  {
    hide Normalize, Rendered;
  }

  method BuildPlan(current: Values, rec: Recommendation) returns (plan: Plan)
    ensures plan == PlanOf(current, rec)
  {
    hide Normalize, Lookup, Rendered;
    var changes: map<string, Change> := map[];
    var rest := rec.sysctls.Keys;
    ghost var done: set<string> := {};
    while rest != {}
      invariant done + rest == rec.sysctls.Keys
      invariant changes == ChangesOn(current, rec.sysctls, done)
      decreases |rest|
    {
      var key :| key in rest;
      var actual := Normalize(Lookup(current, key));
      var expected := Normalize(rec.sysctls[key]);
      changes := changes[key := Change(actual, expected, actual != expected)];
      rest := rest - {key};
      done := done + {key};
    }
    var config := RenderSysctl(rec);
    plan := Plan(rec, changes, config, rec.warnings);
  }

  // ---------- rendering ----------

  function HeaderLine(rec: Recommendation): string {
    "# role=" + rec.input.role + " bandwidth=" + FormatInt(rec.input.bandwidthMbps) +
    "Mbps rtt=" + FormatInt(rec.input.rttMillis) + "ms memory=" + FormatInt(rec.memoryMB) + "MB"
  }

  const TITLE_LINE := "# " + ("Managed by " + ("sshappy-tune. " + ("Do not edit " + "by hand.")))

  // The title, the inputs, an empty line, and then the entries.
  function WithHeader(rec: Recommendation, body: string): string {
    TITLE_LINE + "\n" + (HeaderLine(rec) + "\n" + ("" + "\n" + body))
  }

  function EntryLine(key: string, value: string): string {
    key + " = " + value
  }

  function Entries(keys: seq<string>, values: Values): string
    requires forall i | 0 <= i < |keys| :: keys[i] in values
  {
    if keys == [] then ""
    else EntryLine(keys[0], values[keys[0]]) + "\n" + Entries(keys[1..], values)
  }

  ghost function Rendered(rec: Recommendation): string {
    WithHeader(rec, Entries(SortedKeys(rec.sysctls.Keys), rec.sysctls))
  }

  lemma {:induction false} EntriesSnoc(keys: seq<string>, key: string, values: Values)
    requires key in values && forall i | 0 <= i < |keys| :: keys[i] in values
    ensures Entries(keys + [key], values) == Entries(keys, values) + (EntryLine(key, values[key]) + "\n")
  {
    var ks := keys + [key];
    if keys == [] {
      assert ks == [key];
      assert EntryLine(key, values[key]) + "\n" + "" == EntryLine(key, values[key]) + "\n";
    } else {
      assert ks[1..] == keys[1..] + [key];
      EntriesSnoc(keys[1..], key, values);
      Associate(EntryLine(ks[0], values[ks[0]]) + "\n", Entries(keys[1..], values), EntryLine(key, values[key]) + "\n");
    }
  }

  lemma HeaderThenBody(rec: Recommendation, a: string, b: string)
    ensures WithHeader(rec, a) + b == WithHeader(rec, a + b)
  {
    var h, t := HeaderLine(rec) + "\n", "" + "\n";
    Associate(t, a, b);
    Associate(h, t + a, b);
    Associate(TITLE_LINE + "\n", h + (t + a), b);
  }

  // Depends on the map and the inputs only, not on the order the map is ranged over.
  method RenderSysctl(rec: Recommendation) returns (text: string)
    ensures text == Rendered(rec)
  {
    hide WithHeader, EntryLine;
    var keys := CollectSortedKeys(rec.sysctls);
    text := WithHeader(rec, "");
    assert keys[..0] == [];
    for i := 0 to |keys|
      invariant forall j | 0 <= j < |keys| :: keys[j] in rec.sysctls
      invariant text == WithHeader(rec, Entries(keys[..i], rec.sysctls))
    {
      var line := EntryLine(keys[i], rec.sysctls[keys[i]]) + "\n";
      EntriesSnoc(keys[..i], keys[i], rec.sysctls);
      HeaderThenBody(rec, Entries(keys[..i], rec.sysctls), line);
      assert keys[..i + 1] == keys[..i] + [keys[i]];
      text := text + line;
    }
    assert keys[..|keys|] == keys;
  }

  // ---------- parsing ----------

  datatype Line = Skip | Entry(key: string, value: string) | Malformed

  function ParseLine(raw: string): Line {
    var line := TrimSpace(raw);
    if line == "" || line[0] == '#' then Skip
    else
      var n := IndexOf(line, '=');
      if n == |line| then Malformed
      else
        var key := TrimSpace(line[..n]);
        var value := Normalize(line[n + 1..]);
        if key == "" || value == "" then Malformed else Entry(key, value)
  }

  // A line is skipped exactly if it is blank or a comment, and says something exactly if it
  // has a key before its first equals sign and a value after it.
  lemma ParseLineIff(raw: string, key: string, value: string)
    ensures ParseLine(raw) == Skip <==> Blank(raw) || "#" <= TrimSpace(raw)
    ensures ParseLine(raw) == Entry(key, value) <==>
            && !("#" <= TrimSpace(raw)) && key != "" && value != ""
            && exists a, b :: TrimSpace(raw) == a + "=" + b && '=' !in a && TrimSpace(a) == key && Normalize(b) == value
    ensures ParseLine(raw) == Malformed <==>
            && !Blank(raw) && !("#" <= TrimSpace(raw))
            && forall a, b :: TrimSpace(raw) == a + "=" + b && '=' !in a ==> TrimSpace(a) == "" || Normalize(b) == ""
  {
    hide Normalize, TrimLeft, TrimRight;
    TrimBlankIff(raw);
    var line := TrimSpace(raw);
    var n := IndexOf(line, '=');
    if n < |line| { assert line == line[..n] + "=" + line[n + 1..] && '=' !in line[..n]; }
    forall a, b | line == a + "=" + b && '=' !in a ensures n < |line| && a == line[..n] && b == line[n + 1..] {
      assert a + ['='] + b == line;
      IndexOfFirst(a, '=', b);
    }
  }

  lemma TrimBlankIff(raw: string)
    ensures TrimSpace(raw) == "" <==> Blank(raw)
  {
    hide Fields, TrimLeft, TrimRight;
    FieldsOfTrim(raw);
    FieldsBlankIff(raw);
    FieldsBlankIff(TrimSpace(raw));
    TrimSpaceShape(raw);
  }

  function ParseLines(lines: seq<string>, values: Values): Option<Values> {
    if lines == [] then Some(values)
    else
      match ParseLine(lines[0])
      case Skip => ParseLines(lines[1..], values)
      case Entry(key, value) => ParseLines(lines[1..], values[key := value])
      case Malformed => None
  }

  function Parsed(data: string): Option<Values> {
    ParseLines(ScanLines(data), map[])
  }

  method ParseSysctlConfig(data: string) returns (r: Option<Values>)
    ensures r == Parsed(data)
  {
    var values: Values := map[];
    var lines := ScanLines(data);
    var i := 0;
    while i < |lines|
      invariant 0 <= i <= |lines|
      invariant ParseLines(lines, map[]) == ParseLines(lines[i..], values)
    {
      var line := TrimSpace(lines[i]);
      i := i + 1;
      assert lines[i - 1..][1..] == lines[i..];
      if line == "" || line[0] == '#' { continue; }
      var n := IndexOf(line, '=');
      if n == |line| { return None; }
      var key, value := TrimSpace(line[..n]), Normalize(line[n + 1..]);
      if key == "" || value == "" { return None; }
      values := values[key := value];
    }
    r := Some(values);
  }

  // ---------- which keys a configuration text assigns ----------

  // A line assigns the text before its first '=', unless it is blank or a comment.
  function AssignedByLine(raw: string): set<string> {
    var line := TrimSpace(raw);
    if line == "" || line[0] == '#' then {}
    else
      var n := IndexOf(line, '=');
      if n == |line| then {} else {TrimSpace(line[..n])}
  }

  function AssignedByLines(lines: seq<string>): set<string> {
    if lines == [] then {} else AssignedByLine(lines[0]) + AssignedByLines(lines[1..])
  }

  function AssignedKeys(data: string): set<string> {
    AssignedByLines(ScanLines(data))
  }

  // ---------- the round trip ----------

  predicate KeyOk(key: string) {
    key != "" && Trimmed(key) && '\n' !in key && '=' !in key && key[0] != '#'
  }

  ghost predicate Renderable(values: Values) {
    forall key | key in values :: KeyOk(key) && !Blank(values[key])
  }

  // No line break where the text form has no way to escape one.
  ghost predicate OneLine(rec: Recommendation) {
    && '\n' !in rec.input.role
    && forall key | key in rec.sysctls :: '\n' !in rec.sysctls[key]
  }

  ghost function Normalized(values: Values): Values {
    map key | key in values :: Normalize(values[key])
  }

  // How a trimmed entry line is cut at its first '='.
  lemma CutAtEquals(key: string, tail: string)
    requires KeyOk(key)
    ensures var t := key + " " + ['='] + tail;
            && t[0] == key[0]
            && IndexOf(t, '=') == |key| + 1
            && t[..|key| + 1] == key + " "
            && t[|key| + 2..] == tail
  {
    var stem := key + " ";
    assert '=' !in stem;
    IndexOfFirst(stem, '=', tail);
  }

  lemma TrimKeyStem(key: string)
    requires KeyOk(key)
    ensures TrimSpace(key + " ") == key
  {
    var stem := key + " ";
    assert stem[0] == key[0];
    assert TrimLeft(stem) == stem;
    assert stem[..|stem| - 1] == key;
    assert TrimRight(stem) == TrimRight(key) == key;
  }

  lemma TrimFilledEntry(key: string, value: string)
    requires KeyOk(key) && !Blank(value)
    ensures TrimSpace(EntryLine(key, value)) == key + " " + ['='] + (" " + TrimRight(value))
  {
    var line := EntryLine(key, value);
    assert line[0] == key[0];
    assert TrimLeft(line) == line;
    TrimRightAppend(key + " = ", value);
  }

  lemma TrimBlankEntry(key: string, value: string)
    requires KeyOk(key) && Blank(value)
    ensures TrimSpace(EntryLine(key, value)) == key + " " + ['='] + ""
  {
    var line := EntryLine(key, value);
    assert line[0] == key[0];
    assert TrimLeft(line) == line;
    var stem := key + " " + ['='];
    assert line == stem + (" " + value);
    TrimRightBlank(stem, " " + value);
    assert stem + "" == stem;
  }

  lemma {:induction false} TrimRightBlank(s: string, blank: string)
    requires s != "" && !IsSpace(s[|s| - 1]) && Blank(blank)
    ensures TrimRight(s + blank) == s
  {
    var u := s + blank;
    if blank != "" {
      assert u[|u| - 1] == blank[|blank| - 1];
      assert u[..|u| - 1] == s + blank[..|blank| - 1];
      TrimRightBlank(s, blank[..|blank| - 1]);
    } else {
      assert u == s;
    }
  }

  lemma ParseEntryLine(key: string, value: string)
    requires KeyOk(key)
    ensures ParseLine(EntryLine(key, value)) == if Blank(value) then Malformed else Entry(key, Normalize(value))
    ensures AssignedByLine(EntryLine(key, value)) == {key}
  {
    hide TrimLeft, TrimRight, IndexOf, Fields, Join, EntryLine, TrimSpace;
    TrimKeyStem(key);
    if Blank(value) {
      TrimBlankEntry(key, value);
      CutAtEquals(key, "");
      assert Normalize("") == "" by { NormalizeBlankIff(""); }
    } else {
      TrimFilledEntry(key, value);
      CutAtEquals(key, " " + TrimRight(value));
      FieldsDropsHead(" ", TrimRight(value));
      FieldsOfTrimRight(value);
      NormalizeBlankIff(value);
    }
  }

  lemma ParseScannedEntry(key: string, value: string)
    requires KeyOk(key)
    ensures ParseLine(DropCR(EntryLine(key, value))) ==
            if Blank(value) then Malformed else Entry(key, Normalize(value))
    ensures AssignedByLine(DropCR(EntryLine(key, value))) == {key}
  {
    hide ParseLine, AssignedByLine, Fields, Join;
    var line := EntryLine(key, value);
    ParseEntryLine(key, value);
    if value != "" && value[|value| - 1] == '\r' {
      var short := value[..|value| - 1];
      assert DropCR(line) == EntryLine(key, short);
      ParseEntryLine(key, short);
      assert value == short + "\r" && Blank("\r");
      FieldsDropsTail(short, "\r");
      FieldsBlankIff(value);
      FieldsBlankIff(short);
    } else {
      assert line[|line| - 1] != '\r' by { if value == "" { assert line[|line| - 1] == ' '; } }
    }
  }

  ghost predicate Scannable(keys: seq<string>, values: Values) {
    forall i | 0 <= i < |keys| :: keys[i] in values && KeyOk(keys[i]) && '\n' !in values[keys[i]]
  }

  lemma {:induction false} AssignedByEntries(keys: seq<string>, values: Values)
    requires Scannable(keys, values)
    ensures AssignedByLines(ScanLines(Entries(keys, values))) == set k | k in keys
  {
    hide EntryLine, ParseLine, AssignedByLine, ScanLines;
    if keys == [] {
      assert ScanLines("") == [] by { NothingToScan(); }
    } else {
      AssignedByEntry(keys, values);
      AssignedByEntries(keys[1..], values);
      assert keys == [keys[0]] + keys[1..];
    }
  }

  lemma NothingToScan()
    ensures ScanLines("") == []
  {
  }

  lemma AssignedByEntry(keys: seq<string>, values: Values)
    requires Scannable(keys, values) && keys != []
    ensures AssignedByLines(ScanLines(Entries(keys, values))) ==
            {keys[0]} + AssignedByLines(ScanLines(Entries(keys[1..], values)))
  {
    hide EntryLine, ParseLine, AssignedByLine, ScanLines, AssignedByLines;
    var line := EntryLine(keys[0], values[keys[0]]);
    var rest := Entries(keys[1..], values);
    EntryLineIsOneLine(keys[0], values[keys[0]]);
    ScanOneLine(line, rest);
    ParseScannedEntry(keys[0], values[keys[0]]);
    EntryStep(DropCR(line), ScanLines(rest), map[]);
  }

  ghost function NormalizedOn(keys: seq<string>, values: Values): Values
    requires forall i | 0 <= i < |keys| :: keys[i] in values
  {
    map k | k in keys :: Normalize(values[k])
  }

  lemma EntryStep(line: string, lines: seq<string>, values: Values)
    ensures match ParseLine(line)
            case Skip => ParseLines([line] + lines, values) == ParseLines(lines, values)
            case Entry(key, value) => ParseLines([line] + lines, values) == ParseLines(lines, values[key := value])
            case Malformed => ParseLines([line] + lines, values) == None
    ensures AssignedByLines([line] + lines) == AssignedByLine(line) + AssignedByLines(lines)
  {
    assert ([line] + lines)[1..] == lines;
  }

  lemma NormalizedOnHead(keys: seq<string>, values: Values, acc: Values)
    requires keys != [] && forall i | 0 <= i < |keys| :: keys[i] in values
    ensures acc + NormalizedOn(keys, values)
            == acc[keys[0] := Normalize(values[keys[0]])] + NormalizedOn(keys[1..], values)
  {
    assert keys == [keys[0]] + keys[1..];
  }

  lemma {:induction false} ParseEntries(keys: seq<string>, values: Values, acc: Values)
    requires Scannable(keys, values)
    requires forall i | 0 <= i < |keys| :: !Blank(values[keys[i]])
    ensures ParseLines(ScanLines(Entries(keys, values)), acc) == Some(acc + NormalizedOn(keys, values))
  {
    hide EntryLine, ParseLine;
    if keys == [] {
      assert acc + NormalizedOn(keys, values) == acc;
    } else {
      var line := EntryLine(keys[0], values[keys[0]]);
      var rest := Entries(keys[1..], values);
      ScanOneLine(line, rest) by { EntryLineIsOneLine(keys[0], values[keys[0]]); }
      ParseScannedEntry(keys[0], values[keys[0]]);
      EntryStep(DropCR(line), ScanLines(rest), acc);
      ParseEntries(keys[1..], values, acc[keys[0] := Normalize(values[keys[0]])]);
      NormalizedOnHead(keys, values, acc);
    }
  }

  lemma EntryLineIsOneLine(key: string, value: string)
    requires KeyOk(key) && '\n' !in value
    ensures '\n' !in EntryLine(key, value)
  {
  }

  lemma {:induction false} NumbersHoldNoNewline(n: int)
    ensures '\n' !in FormatInt(n)
  {
    var s := FormatNat(if n < 0 then -n else n);
    assert forall i | 0 <= i < |s| :: IsDigit(s[i]);
  }

  lemma HeaderLineHoldsNoNewline(rec: Recommendation)
    requires '\n' !in rec.input.role
    ensures '\n' !in HeaderLine(rec)
  {
    NumbersHoldNoNewline(rec.input.bandwidthMbps);
    NumbersHoldNoNewline(rec.input.rttMillis);
    NumbersHoldNoNewline(rec.memoryMB);
  }

  lemma HeaderLinesScan(rec: Recommendation, body: string)
    requires '\n' !in rec.input.role
    ensures ScanLines(WithHeader(rec, body)) ==
            [DropCR(TITLE_LINE)] + ([DropCR(HeaderLine(rec))] + ([DropCR("")] + ScanLines(body)))
  {
    HeaderLineHoldsNoNewline(rec);
    var blank := "" + "\n" + body;
    ScanOneLine(TITLE_LINE, HeaderLine(rec) + "\n" + blank);
    ScanOneLine(HeaderLine(rec), blank);
    ScanOneLine("", body);
  }

  lemma HeaderLinesSkip(rec: Recommendation)
    ensures ParseLine(DropCR(TITLE_LINE)) == ParseLine(DropCR(HeaderLine(rec))) == ParseLine(DropCR("")) == Skip
    ensures AssignedByLine(DropCR(TITLE_LINE)) == AssignedByLine(DropCR(HeaderLine(rec))) == AssignedByLine(DropCR("")) == {}
  {
    HeaderCommentSkipped(TITLE_LINE);
    HeaderCommentSkipped(HeaderLine(rec));
    assert TrimSpace("") == "";
  }

  lemma HeaderCommentSkipped(line: string)
    requires |line| > 1 && line[0] == '#'
    ensures ParseLine(DropCR(line)) == Skip && AssignedByLine(DropCR(line)) == {}
  {
    CommentSkipped(DropCR(line));
  }

  lemma CommentSkipped(line: string)
    requires line != "" && line[0] == '#'
    ensures ParseLine(line) == Skip && AssignedByLine(line) == {}
  {
    assert TrimLeft(line) == line;
    TrimRightShape(line);
    if TrimRight(line) == "" {
      assert IsSpace(line[0]) by { assert line[0..] == line; }
    }
  }

  lemma HeaderTransparent(rec: Recommendation, body: string)
    requires '\n' !in rec.input.role
    ensures Parsed(WithHeader(rec, body)) == ParseLines(ScanLines(body), map[])
    ensures AssignedKeys(WithHeader(rec, body)) == AssignedByLines(ScanLines(body))
  {
    HeaderLinesScan(rec, body);
    HeaderLinesSkip(rec);
    var lines := ScanLines(body);
    var l3 := [DropCR("")] + lines;
    var l2 := [DropCR(HeaderLine(rec))] + l3;
    EntryStep(DropCR(""), lines, map[]);
    EntryStep(DropCR(HeaderLine(rec)), l3, map[]);
    EntryStep(DropCR(TITLE_LINE), l2, map[]);
  }

  lemma KeysScannable(values: Values)
    requires forall key | key in values :: KeyOk(key) && '\n' !in values[key]
    ensures Scannable(SortedKeys(values.Keys), values)
  {
  }

  lemma NormalizedOnAll(values: Values)
    ensures map[] + NormalizedOn(SortedKeys(values.Keys), values) == Normalized(values)
  {
  }

  lemma RoundTrip(rec: Recommendation)
    requires OneLine(rec) && Renderable(rec.sysctls)
    ensures Parsed(Rendered(rec)) == Some(Normalized(rec.sysctls))
  {
    hide WithHeader, Entries, Parsed, Normalized, NormalizedOn, ScanLines, ParseLines;
    var keys := SortedKeys(rec.sysctls.Keys);
    HeaderTransparent(rec, Entries(keys, rec.sysctls));
    KeysScannable(rec.sysctls);
    ParseEntries(keys, rec.sysctls, map[]);
    NormalizedOnAll(rec.sysctls);
  }

  // ---------- what parsing can deliver at all ----------

  // A non-empty trimmed piece of a trimmed line that starts the line.
  lemma TrimmedHead(line: string, n: nat)
    requires n <= |line| && line != "" && !IsSpace(line[0]) && TrimSpace(line[..n]) != ""
    ensures var key := TrimSpace(line[..n]);
            Trimmed(key) && key[0] == line[0] && |key| <= n && key == line[..|key|]
  {
    var before := line[..n];
    assert before != "" && before[0] == line[0];
    assert TrimLeft(before) == before;
    TrimRightShape(before);
  }

  lemma ParsedEntryQualifies(raw: string)
    requires '\n' !in raw && ParseLine(raw).Entry?
    ensures KeyOk(ParseLine(raw).key) && ParseLine(raw).value != ""
  {
    hide TrimLeft, TrimRight;
    var line := TrimSpace(raw);
    TrimSpaceShape(raw);
    var k := Leading(raw);
    TrimmedHead(line, IndexOf(line, '='));
    var key := ParseLine(raw).key;
    forall i | 0 <= i < |key| ensures key[i] != '\n' && key[i] != '=' {
      assert key[i] == line[i] == raw[k + i] && raw[k + i] in raw;
    }
  }

  lemma {:induction false} ParsedQualifies(lines: seq<string>, values: Values)
    requires forall i | 0 <= i < |lines| :: '\n' !in lines[i]
    requires forall key | key in values :: KeyOk(key) && values[key] != ""
    requires ParseLines(lines, values).Some?
    ensures var m := ParseLines(lines, values).value; forall key | key in m :: KeyOk(key) && m[key] != ""
  {
    if lines != [] {
      match ParseLine(lines[0])
      case Skip => ParsedQualifies(lines[1..], values);
      case Entry(key, value) =>
        ParsedEntryQualifies(lines[0]);
        ParsedQualifies(lines[1..], values[key := value]);
      case Malformed =>
    }
  }

  // The file assigns exactly the recommended keys.
  lemma RenderedAssignsItsKeys(rec: Recommendation)
    requires OneLine(rec) && forall key | key in rec.sysctls :: KeyOk(key)
    ensures AssignedKeys(Rendered(rec)) == rec.sysctls.Keys
  {
    var keys := SortedKeys(rec.sysctls.Keys);
    HeaderTransparent(rec, Entries(keys, rec.sysctls));
    AssignedByEntries(keys, rec.sysctls);
  }

  // A line break inside a value can make the file assign a key nobody recommended.
  lemma LineBreakLeaks(rec: Recommendation, key: string, value: string, other: string, leaked: string)
    requires KeyOk(key) && KeyOk(other) && '\n' !in rec.input.role && '\n' !in value && '\n' !in leaked
    requires rec.sysctls == map[key := value + "\n" + EntryLine(other, leaked)]
    ensures AssignedKeys(Rendered(rec)) == {key, other}
  {
    hide WithHeader, EntryLine, ParseLine, AssignedByLine, ScanLines, DropCR, KeyOk;
    var keys := SortedKeys({key});
    assert keys == [key] by { assert |keys| == 1 && key in keys; }
    HeaderTransparent(rec, Entries(keys, rec.sysctls));
    EntriesOfOne(key, rec.sysctls);
    var first, second := EntryLine(key, value), EntryLine(other, leaked);
    EntryLineIsOneLine(key, value);
    EntryLineIsOneLine(other, leaked);
    SplitEntry(key, value, second);
    TwoLinesScan(first, second);
    ParseScannedEntry(key, value);
    ParseScannedEntry(other, leaked);
    EntryStep(DropCR(second), [], map[]);
    EntryStep(DropCR(first), [DropCR(second)] + [], map[]);
  }

  lemma EntriesOfOne(key: string, values: Values)
    requires key in values
    ensures Entries([key], values) == EntryLine(key, values[key]) + "\n" + ""
  {
    assert [key][1..] == [];
  }

  lemma SplitEntry(key: string, value: string, second: string)
    ensures EntryLine(key, value + "\n" + second) + "\n" == EntryLine(key, value) + "\n" + (second + "\n")
  {
    Associate(key + " = ", value, "\n" + second);
    Associate(value, "\n", second);
  }

  lemma TwoLinesScan(first: string, second: string)
    requires '\n' !in first && '\n' !in second
    ensures ScanLines(first + "\n" + (second + "\n") + "") == [DropCR(first)] + ([DropCR(second)] + [])
  {
    var tail := second + "\n" + "";
    assert first + "\n" + (second + "\n") + "" == first + "\n" + tail;
    ScanOneLine(first, tail);
    ScanOneLine(second, "");
  }

  // ---------- recommendations are faithful ----------

  // A value that is one line, not blank, and already normalised.
  predicate Plain(value: string) {
    '\n' !in value && !Blank(value) && Normalize(value) == value
  }

  lemma NumberIsPlain(n: nat)
    ensures Plain(FormatInt(n))
  {
    FormatNatIsWord(n);
    NumbersHoldNoNewline(n);
    assert !IsSpace(FormatNat(n)[0]);
  }

  lemma TripleIsPlain(a: string, b: string, n: nat)
    requires Word(a) && Word(b) && '\n' !in a && '\n' !in b
    ensures Plain(a + " " + b + " " + FormatInt(n))
  {
    var c := FormatInt(n);
    FormatNatIsWord(n);
    NumbersHoldNoNewline(n);
    var words := [a, b, c];
    FieldsOfJoin(words);
    assert words[1..] == [b, c] && words[1..][1..] == [c];
    assert Join([c]) == c;
    assert Join([b, c]) == b + " " + c;
    assert Join(words) == a + " " + (b + " " + c);
    assert a + " " + (b + " " + c) == a + " " + b + " " + c;
    NormalizeBlankIff(a + " " + b + " " + c);
  }

  lemma WordIsPlain(w: string)
    requires Word(w)
    ensures Plain(w)
  {
    FieldsOfJoin([w]);
    assert !IsSpace(w[0]);
  }

  lemma TriplesArePlain(buffer: nat)
    ensures Plain("4096 87380 " + FormatInt(buffer)) && Plain("4096 65536 " + FormatInt(buffer))
  {
    hide Plain, FormatInt;
    TripleIsPlain("4096", "87380", buffer);
    TripleIsPlain("4096", "65536", buffer);
    assert "4096" + " " + "87380" + " " == "4096 87380 ";
    assert "4096" + " " + "65536" + " " == "4096 65536 ";
  }

  lemma ConstantsArePlain()
    ensures Plain("fq") && Plain("bbr") && Plain("3") && Plain("1") && Plain("0")
  {
    hide Plain;
    WordIsPlain("fq");
    WordIsPlain("bbr");
    WordIsPlain("3");
    WordIsPlain("1");
    WordIsPlain("0");
  }

  lemma ValuesArePlain(buffer: nat, somaxconn: nat, synBacklog: nat)
    ensures var values := Recommend.Values(buffer, somaxconn, synBacklog);
            && values.Keys == MANAGED_SYSCTLS
            && forall key | key in values :: Plain(values[key])
  {
    hide Plain, FormatInt;
    NumberIsPlain(buffer);
    NumberIsPlain(somaxconn);
    NumberIsPlain(synBacklog);
    TriplesArePlain(buffer);
    ConstantsArePlain();
  }

  predicate NameChar(c: char) {
    'a' <= c <= 'z' || c == '.' || c == '_' || '0' <= c <= '9'
  }

  lemma NameIsOk(name: string)
    requires name != "" && forall i | 0 <= i < |name| :: NameChar(name[i])
    ensures KeyOk(name)
  {
  }

  lemma CoreKeysAreOk()
    ensures KeyOk(DEFAULT_QDISC) && KeyOk(RMEM_MAX) && KeyOk(SOMAXCONN) && KeyOk(WMEM_MAX)
  {
    hide KeyOk;
    NameIsOk(DEFAULT_QDISC);
    NameIsOk(RMEM_MAX);
    NameIsOk(SOMAXCONN);
    NameIsOk(WMEM_MAX);
  }

  lemma CongestionKeysAreOk()
    ensures KeyOk(CONGESTION) && KeyOk(FASTOPEN) && KeyOk(SYN_BACKLOG)
  {
    hide KeyOk;
    NameIsOk(CONGESTION);
    NameIsOk(FASTOPEN);
    NameIsOk(SYN_BACKLOG);
  }

  lemma BufferKeysAreOk()
    ensures KeyOk(MODERATE_RCVBUF) && KeyOk(MTU_PROBING) && KeyOk(TCP_RMEM)
  {
    hide KeyOk;
    NameIsOk(MODERATE_RCVBUF);
    NameIsOk(MTU_PROBING);
    NameIsOk(TCP_RMEM);
  }

  lemma OtherKeysAreOk()
    ensures KeyOk(SLOW_START) && KeyOk(SYNCOOKIES) && KeyOk(TCP_WMEM)
  {
    hide KeyOk;
    NameIsOk(SLOW_START);
    NameIsOk(SYNCOOKIES);
    NameIsOk(TCP_WMEM);
  }

  lemma ManagedKeysAreOk()
    ensures forall key | key in MANAGED_SYSCTLS :: KeyOk(key)
  {
    hide KeyOk;
    CoreKeysAreOk();
    CongestionKeysAreOk();
    BufferKeysAreOk();
    OtherKeysAreOk();
  }

  lemma BacklogLookups(buffer: int, somaxconn: int, synBacklog: int)
    ensures var values := Recommend.Values(buffer, somaxconn, synBacklog);
            values[SOMAXCONN] == FormatInt(somaxconn) && values[SYN_BACKLOG] == FormatInt(synBacklog)
  {
  }

  // Every recommendation passes the allowlist test, is rendered faithfully, and
  // comes back from its text exactly as it was.
  lemma RecommendationRoundTrip(profile: Profile, input: Input)
    requires Recommended(profile, input).Ok?
    ensures var rec := Recommended(profile, input).value;
            && rec.sysctls.Keys == MANAGED_SYSCTLS
            && OneLine(rec) && Renderable(rec.sysctls)
            && Normalized(rec.sysctls) == rec.sysctls
            && Parsed(Rendered(rec)) == Some(rec.sysctls)
            && AssignedKeys(Rendered(rec)) == MANAGED_SYSCTLS
  {
    hide Rendered, Parsed, AssignedKeys, Recommend.Values, KeyOk, Normalize, Blank;
    var rec := Recommended(profile, input).value;
    BufferIsPositive(profile.memoryMB, input);
    var s1 := Lookup(profile.sysctls, SOMAXCONN);
    var s2 := Lookup(profile.sysctls, SYN_BACKLOG);
    MaxParsedFixpoint(s1, MINIMUM_BACKLOG);
    MaxParsedFixpoint(s2, MINIMUM_BACKLOG);
    ValuesArePlain(rec.bufferMaxBytes, MaxParsed(s1, MINIMUM_BACKLOG), MaxParsed(s2, MINIMUM_BACKLOG));
    ManagedKeysAreOk();
    RoundTrip(rec);
    RenderedAssignsItsKeys(rec);
  }

  lemma BufferIsPositive(memoryMB: int, input: Input)
    requires memoryMB >= 0
    ensures BufferMax(memoryMB, input) >= MINIMUM_BUFFER
  {
    CapExactIff(memoryMB);
  }
}
