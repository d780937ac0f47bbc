/**
 The text form of a recommendation has no way to escape a line feed.  For every map and
 every role, with or without line feeds: exactly when does a rendered file parse back?
 */
module LineFeeds {
  import opened Wrappers
  import opened Text
  import opened Decimal
  import opened Sorting
  import opened Recommend
  import opened Config

  function FirstLine(value: string): string {
    value[..IndexOf(value, '\n')]
  }

  // What follows the first line feed.
  function LaterLines(value: string): string {
    if IndexOf(value, '\n') == |value| then "" else value[IndexOf(value, '\n') + 1..]
  }

  // Something on the first line and nothing on the others.
  predicate OnFirstLine(value: string) {
    !Blank(FirstLine(value)) && Blank(LaterLines(value))
  }

  // The lines a value adds to the file below its own.
  function ExtraLines(value: string): seq<string> {
    if IndexOf(value, '\n') == |value| then [] else ScanLines(LaterLines(value) + "\n")
  }

  lemma FirstLineIsOneLine(value: string)
    ensures '\n' !in FirstLine(value)
  {
    hide IndexOf;
    var first := FirstLine(value);
    assert forall i | 0 <= i < |first| :: first[i] == value[i] && value[i] != '\n';
  }

  lemma CutValue(value: string)
    ensures '\n' !in FirstLine(value)
    ensures IndexOf(value, '\n') == |value| ==> FirstLine(value) == value && LaterLines(value) == ""
    ensures IndexOf(value, '\n') < |value| ==> value == FirstLine(value) + "\n" + LaterLines(value)
  {
    hide IndexOf;
    FirstLineIsOneLine(value);
    var n := IndexOf(value, '\n');
    if n < |value| { SplitAt(value, n); }
  }

  lemma SplitAt(s: string, n: nat)
    requires n < |s|
    ensures s == s[..n] + [s[n]] + s[n + 1..]
  {
  }

  // ---------- lines and fields of a longer text ----------

  lemma {:induction false} ScanConcat(a: string, rest: string)
    ensures ScanLines(a + "\n" + rest) == ScanLines(a + "\n") + ScanLines(rest)
    decreases |a|
  {
    hide ScanLines, DropCR;
    CutValue(a);
    NothingToScan();
    if IndexOf(a, '\n') == |a| {
      ScanOneLine(a, rest);
      ScanOneLine(a, "");
      assert a + "\n" + "" == a + "\n";
      assert [DropCR(a)] + [] == [DropCR(a)];
    } else {
      var first, later := FirstLine(a), LaterLines(a);
      assert a + "\n" + rest == first + "\n" + (later + "\n" + rest);
      assert a + "\n" == first + "\n" + (later + "\n");
      ScanOneLine(first, later + "\n" + rest);
      ScanOneLine(first, later + "\n");
      ScanConcat(later, rest);
    }
  }

  lemma {:induction false} FieldsAcross(a: string, c: char, b: string)
    requires IsSpace(c)
    ensures Fields(a + [c] + b) == Fields(a) + Fields(b)
  {
    var s := a + [c] + b;
    if a == "" {
      assert s[1..] == b;
    } else {
      assert s[1..] == a[1..] + [c] + b;
      FieldsAcross(a[1..], c, b);
      if |a| > 1 { assert s[1] == a[1]; } else { assert s[1] == c; }
    }
  }

  lemma {:induction false} FewerFields(s: string, n: nat)
    requires n <= |s|
    ensures |Fields(s[n..])| <= |Fields(s)|
  {
    if n > 0 {
      FewerFields(s[1..], n - 1);
      assert s[1..][n - 1..] == s[n..];
    } else {
      assert s[0..] == s;
    }
  }

  lemma FieldsOfDropCR(line: string)
    ensures Fields(DropCR(line)) == Fields(line)
  {
    if line != "" && line[|line| - 1] == '\r' {
      assert line == line[..|line| - 1] + "\r";
      FieldsDropsTail(line[..|line| - 1], "\r");
    }
  }

  // No line holds more fields than the text.
  predicate AtMost(lines: seq<string>, n: nat) {
    forall i | 0 <= i < |lines| :: |Fields(lines[i])| <= n
  }

  lemma {:induction false} LineFields(s: string, n: nat)
    requires |Fields(s)| <= n
    ensures AtMost(ScanLines(s), n)
    decreases |s|
  {
    hide Fields, DropCR;
    if s != "" {
      CutValue(s);
      var k := IndexOf(s, '\n');
      if k == |s| {
        FieldsOfDropCR(s);
      } else {
        FieldsAcross(s[..k], '\n', s[k + 1..]);
        assert s == s[..k] + ['\n'] + s[k + 1..];
        FieldsOfDropCR(s[..k]);
        LineFields(s[k + 1..], n);
      }
    }
  }

  lemma EntryFields(raw: string)
    requires ParseLine(raw).Entry?
    ensures |Fields(ParseLine(raw).value)| <= |Fields(raw)|
  {
    hide Fields, Join, TrimLeft, TrimRight;
    FieldsOfTrim(raw);
    var line := TrimSpace(raw);
    var n := IndexOf(line, '=');
    NormalizeCanonical(line[n + 1..], "");
    FewerFields(line, n + 1);
  }

  // ---------- parsing in parts ----------

  lemma {:induction false} ParseAppend(a: seq<string>, b: seq<string>, acc: Values)
    ensures ParseLines(a + b, acc) ==
            if ParseLines(a, acc).None? then None else ParseLines(b, ParseLines(a, acc).value)
  {
    hide ParseLine;
    if a == [] {
      assert a + b == b;
    } else {
      assert (a + b)[1..] == a[1..] + b;
      match ParseLine(a[0])
      case Skip => ParseAppend(a[1..], b, acc);
      case Entry(key, value) => ParseAppend(a[1..], b, acc[key := value]);
      case Malformed =>
    }
  }

  // A key keeps its value or gets one with no more fields than some line has.
  lemma {:induction false} KeptOrShort(lines: seq<string>, acc: Values, key: string, n: nat)
    requires AtMost(lines, n) && ParseLines(lines, acc).Some? && key in acc
    ensures var m := ParseLines(lines, acc).value; key in m && (m[key] == acc[key] || |Fields(m[key])| <= n)
  {
    hide ParseLine, Fields;
    if lines != [] {
      match ParseLine(lines[0])
      case Skip => KeptOrShort(lines[1..], acc, key, n);
      case Entry(k, value) =>
        EntryFields(lines[0]);
        KeptOrShort(lines[1..], acc[k := value], key, n);
      case Malformed =>
    }
  }

  lemma {:induction false} BlankTrims(s: string)
    requires Blank(s)
    ensures TrimSpace(s) == ""
  {
    if s != "" { BlankTrims(s[1..]); }
  }

  lemma {:induction false} BlankLinesSkip(s: string, acc: Values)
    requires Blank(s)
    ensures ParseLines(ScanLines(s), acc) == Some(acc)
    decreases |s|
  {
    if s != "" {
      var n := IndexOf(s, '\n');
      BlankTrims(DropCR(s[..n]));
      assert s[..|s|] == s;
      if n < |s| { BlankLinesSkip(s[n + 1..], acc); }
    }
  }

  // ---------- the entries ----------

  lemma EntryText(key: string, first: string, later: string, tail: string)
    ensures EntryLine(key, first + "\n" + later) + "\n" + tail == EntryLine(key, first) + "\n" + (later + "\n" + tail)
  {
    var head := key + " = ";
    Associate(head, first, "\n" + later);
    Associate(first, "\n", later);
    assert head + first + ("\n" + later) + "\n" + tail == head + first + "\n" + (later + "\n" + tail);
  }

  lemma EntryLines(key: string, value: string, tail: string)
    requires KeyOk(key)
    ensures ScanLines(EntryLine(key, value) + "\n" + tail) ==
            [DropCR(EntryLine(key, FirstLine(value)))] + (ExtraLines(value) + ScanLines(tail))
  {
    hide ScanLines, DropCR, KeyOk;
    CutValue(value);
    var first, later := FirstLine(value), LaterLines(value);
    EntryLineIsOneLine(key, first);
    if IndexOf(value, '\n') == |value| {
      ScanOneLine(EntryLine(key, value), tail);
      assert [] + ScanLines(tail) == ScanLines(tail);
    } else {
      EntryText(key, first, later, tail);
      ScanOneLine(EntryLine(key, first), later + "\n" + tail);
      ScanConcat(later, tail);
    }
  }

  lemma ValueFields(value: string)
    ensures Fields(value) == Fields(FirstLine(value)) + Fields(LaterLines(value))
  {
    hide Fields;
    CutValue(value);
    if IndexOf(value, '\n') == |value| {
      FieldsBlankIff("");
    } else {
      FieldsAcross(FirstLine(value), '\n', LaterLines(value));
    }
  }

  ghost predicate AllUsable(keys: seq<string>, values: Values) {
    forall i | 0 <= i < |keys| :: keys[i] in values && KeyOk(keys[i])
  }

  // What parsing makes of one entry with all its lines.
  lemma ParseOneEntry(keys: seq<string>, values: Values, acc: Values)
    requires keys != [] && AllUsable(keys, values)
    ensures var value, rest := values[keys[0]], ScanLines(Entries(keys[1..], values));
            ParseLines(ScanLines(Entries(keys, values)), acc) ==
              if Blank(FirstLine(value)) then None
              else ParseLines(ExtraLines(value) + rest, acc[keys[0] := Normalize(FirstLine(value))])
  {
    hide ScanLines, ParseLine, Normalize, Blank, FirstLine, ExtraLines, DropCR, EntryLine, KeyOk;
    var value := values[keys[0]];
    EntryLines(keys[0], value, Entries(keys[1..], values));
    ParseScannedEntry(keys[0], FirstLine(value));
    EntryStep(DropCR(EntryLine(keys[0], FirstLine(value))), ExtraLines(value) + ScanLines(Entries(keys[1..], values)), acc);
  }

  lemma ExtraBlankLines(value: string, acc: Values)
    requires Blank(LaterLines(value))
    ensures ParseLines(ExtraLines(value), acc) == Some(acc)
  {
    hide LaterLines, ScanLines;
    if IndexOf(value, '\n') < |value| {
      assert Blank(LaterLines(value) + "\n");
      BlankLinesSkip(LaterLines(value) + "\n", acc);
    }
  }

  lemma FirstLineNormalizes(value: string)
    requires Blank(LaterLines(value))
    ensures Normalize(value) == Normalize(FirstLine(value))
  {
    hide Fields, Join;
    ValueFields(value);
    FieldsBlankIff(LaterLines(value));
    assert Fields(FirstLine(value)) + [] == Fields(FirstLine(value));
  }

  lemma {:induction false} ParseFirstLines(keys: seq<string>, values: Values, acc: Values)
    requires AllUsable(keys, values) && forall i | 0 <= i < |keys| :: OnFirstLine(values[keys[i]])
    ensures ParseLines(ScanLines(Entries(keys, values)), acc) == Some(acc + NormalizedOn(keys, values))
  {
    hide ScanLines, Normalize, Blank, FirstLine, LaterLines, ExtraLines, KeyOk, EntryLine;
    if keys == [] {
      NothingToScan();
      assert acc + NormalizedOn(keys, values) == acc;
    } else {
      var value, rest := values[keys[0]], ScanLines(Entries(keys[1..], values));
      assert OnFirstLine(value);
      var acc1 := acc[keys[0] := Normalize(FirstLine(value))];
      ParseOneEntry(keys, values, acc);
      ParseAppend(ExtraLines(value), rest, acc1);
      ExtraBlankLines(value, acc1);
      FirstLineNormalizes(value);
      ParseFirstLines(keys[1..], values, acc1);
      NormalizedOnHead(keys, values, acc);
    }
  }

  lemma ExtraFields(value: string)
    ensures AtMost(ExtraLines(value), |Fields(LaterLines(value))|)
  {
    hide Fields, ScanLines, LaterLines;
    var later := LaterLines(value);
    FieldsDropsTail(later, "\n");
    LineFields(later + "\n", |Fields(later)|);
  }

  // If a value comes back whole, it is on its first line.
  lemma BackOnFirstLine(value: string, acc: Values, key: string)
    requires !Blank(FirstLine(value)) && key in acc && acc[key] == Normalize(FirstLine(value))
    requires ParseLines(ExtraLines(value), acc).Some?
    requires var m := ParseLines(ExtraLines(value), acc).value; key in m && m[key] == Normalize(value)
    ensures OnFirstLine(value)
  {
    hide Fields, Join, FirstLine, LaterLines, ExtraLines, ParseLines;
    ExtraFields(value);
    KeptOrShort(ExtraLines(value), acc, key, |Fields(LaterLines(value))|);
    ValueFields(value);
    NormalizeCanonical(value, FirstLine(value));
    NormalizeCanonical(FirstLine(value), "");
    FieldsBlankIff(FirstLine(value));
    FieldsBlankIff(LaterLines(value));
    assert |Fields(FirstLine(value))| > 0;
  }

  // If every entry comes back, every value is on its first line.
  lemma {:induction false} AllOnFirstLine(keys: seq<string>, values: Values, acc: Values)
    requires AllUsable(keys, values) && forall i, j | 0 <= i < j < |keys| :: keys[i] != keys[j]
    requires ParseLines(ScanLines(Entries(keys, values)), acc).Some?
    requires var m := ParseLines(ScanLines(Entries(keys, values)), acc).value;
             forall i | 0 <= i < |keys| :: keys[i] in m && m[keys[i]] == Normalize(values[keys[i]])
    ensures forall i | 0 <= i < |keys| :: OnFirstLine(values[keys[i]])
  {
    hide ScanLines, Normalize, Blank, FirstLine, LaterLines, ExtraLines, KeyOk, EntryLine, OnFirstLine, Entries;
    if keys != [] {
      var value, tail := values[keys[0]], keys[1..];
      var rest := ScanLines(Entries(tail, values));
      var acc1 := acc[keys[0] := Normalize(FirstLine(value))];
      ParseOneEntry(keys, values, acc);
      ParseAppend(ExtraLines(value), rest, acc1);
      var acc2 := ParseLines(ExtraLines(value), acc1).value;
      AllOnFirstLine(tail, values, acc2);
      ParseFirstLines(tail, values, acc2);
      assert keys[0] !in tail;
      BackOnFirstLine(value, acc1, keys[0]);
    }
  }

  // ---------- the header ----------

  function HeaderLines(rec: Recommendation): seq<string> {
    ScanLines(HeaderLine(rec) + "\n")
  }

  // Each line is skipped or assigns one of the keys.
  predicate Harmless(lines: seq<string>, keys: set<string>) {
    forall i | 0 <= i < |lines| :: ParseLine(lines[i]).Skip? || (ParseLine(lines[i]).Entry? && ParseLine(lines[i]).key in keys)
  }

  lemma {:induction false} HarmlessIff(lines: seq<string>, acc: Values, keys: set<string>)
    requires acc.Keys <= keys
    ensures Harmless(lines, keys) <==> ParseLines(lines, acc).Some? && ParseLines(lines, acc).value.Keys <= keys
  {
    hide ParseLine;
    if lines != [] {
      assert Harmless(lines, keys) <==> Harmless(lines[..1], keys) && Harmless(lines[1..], keys) by {
        assert forall i | 1 <= i < |lines| :: lines[i] == lines[1..][i - 1];
      }
      match ParseLine(lines[0])
      case Skip => HarmlessIff(lines[1..], acc, keys);
      case Entry(key, value) =>
        if key in keys {
          HarmlessIff(lines[1..], acc[key := value], keys);
        } else {
          KeysStay(lines[1..], acc[key := value], key);
        }
      case Malformed =>
    }
  }

  lemma {:induction false} KeysStay(lines: seq<string>, acc: Values, key: string)
    requires key in acc
    ensures ParseLines(lines, acc).Some? ==> key in ParseLines(lines, acc).value
  {
    hide ParseLine;
    if lines != [] {
      match ParseLine(lines[0])
      case Skip => KeysStay(lines[1..], acc, key);
      case Entry(k, value) => KeysStay(lines[1..], acc[k := value], key);
      case Malformed =>
    }
  }

  lemma TitleHoldsNoNewline()
    ensures '\n' !in TITLE_LINE
  {
  }

  lemma HeaderScan(rec: Recommendation, body: string)
    ensures ScanLines(WithHeader(rec, body)) ==
            [DropCR(TITLE_LINE)] + (HeaderLines(rec) + ([DropCR("")] + ScanLines(body)))
  {
    hide ScanLines, DropCR, HeaderLine;
    assert '\n' !in TITLE_LINE by { TitleHoldsNoNewline(); }
    ScanOneLine(TITLE_LINE, HeaderLine(rec) + "\n" + ("" + "\n" + body));
    ScanConcat(HeaderLine(rec), "" + "\n" + body);
    ScanOneLine("", body);
  }

  lemma HeaderParse(rec: Recommendation, body: string)
    ensures var header := ParseLines(HeaderLines(rec), map[]);
            Parsed(WithHeader(rec, body)) == if header.None? then None else ParseLines(ScanLines(body), header.value)
  {
    hide ScanLines, DropCR, ParseLine, HeaderLine, WithHeader, HeaderLines;
    HeaderScan(rec, body);
    HeaderLinesSkip(rec);
    var tail := [DropCR("")] + ScanLines(body);
    EntryStep(DropCR(TITLE_LINE), HeaderLines(rec) + tail, map[]);
    ParseAppend(HeaderLines(rec), tail, map[]);
    if ParseLines(HeaderLines(rec), map[]).Some? {
      EntryStep(DropCR(""), ScanLines(body), ParseLines(HeaderLines(rec), map[]).value);
    }
  }

  // A role on one line makes the header one comment line.
  lemma OneLineRoleIsHarmless(rec: Recommendation)
    requires '\n' !in rec.input.role
    ensures Harmless(HeaderLines(rec), rec.sysctls.Keys)
  {
    hide ScanLines, DropCR, ParseLine, HeaderLine;
    HeaderLineHoldsNoNewline(rec);
    ScanOneLine(HeaderLine(rec), "");
    NothingToScan();
    assert HeaderLine(rec) + "\n" + "" == HeaderLine(rec) + "\n";
    HeaderLinesSkip(rec);
  }

  // ---------- which keys the file assigns ----------

  lemma {:induction false} AssignedAppend(a: seq<string>, b: seq<string>)
    ensures AssignedByLines(a + b) == AssignedByLines(a) + AssignedByLines(b)
  {
    hide AssignedByLine;
    if a == [] {
      assert a + b == b;
    } else {
      assert (a + b)[1..] == a[1..] + b;
      AssignedAppend(a[1..], b);
    }
  }

  lemma {:induction false} AssignedAmong(lines: seq<string>, i: nat)
    requires i < |lines|
    ensures AssignedByLine(lines[i]) <= AssignedByLines(lines)
  {
    hide AssignedByLine;
    if i > 0 { AssignedAmong(lines[1..], i - 1); }
  }

  lemma EntryAssigns(line: string)
    requires ParseLine(line).Entry?
    ensures AssignedByLine(line) == {ParseLine(line).key}
  {
    hide TrimSpace, Normalize, IndexOf;
  }

  lemma HeaderAssigns(rec: Recommendation, body: string)
    ensures AssignedKeys(WithHeader(rec, body)) == AssignedByLines(HeaderLines(rec)) + AssignedByLines(ScanLines(body))
  {
    hide ScanLines, DropCR, ParseLine, HeaderLine, WithHeader, HeaderLines, AssignedByLine, AssignedByLines;
    HeaderScan(rec, body);
    HeaderLinesSkip(rec);
    var tail := [DropCR("")] + ScanLines(body);
    EntryStep(DropCR(TITLE_LINE), HeaderLines(rec) + tail, map[]);
    AssignedAppend(HeaderLines(rec), tail);
    EntryStep(DropCR(""), ScanLines(body), map[]);
  }

  // The keys, and what the further lines of their values assign.
  ghost function AssignedByEach(keys: seq<string>, values: Values): set<string>
    requires forall i | 0 <= i < |keys| :: keys[i] in values
  {
    if keys == [] then {}
    else {keys[0]} + AssignedByLines(ExtraLines(values[keys[0]])) + AssignedByEach(keys[1..], values)
  }

  lemma OneEntryAssigns(keys: seq<string>, values: Values)
    requires keys != [] && AllUsable(keys, values)
    ensures AssignedByLines(ScanLines(Entries(keys, values))) ==
            {keys[0]} + AssignedByLines(ExtraLines(values[keys[0]])) + AssignedByLines(ScanLines(Entries(keys[1..], values)))
  {
    hide ScanLines, ParseLine, FirstLine, ExtraLines, DropCR, EntryLine, KeyOk, AssignedByLines, AssignedByLine, Blank, Normalize;
    var value, rest := values[keys[0]], ScanLines(Entries(keys[1..], values));
    EntryLines(keys[0], value, Entries(keys[1..], values));
    ParseScannedEntry(keys[0], FirstLine(value));
    EntryStep(DropCR(EntryLine(keys[0], FirstLine(value))), ExtraLines(value) + rest, map[]);
    AssignedAppend(ExtraLines(value), rest);
  }

  lemma {:induction false} EntriesAssign(keys: seq<string>, values: Values)
    requires AllUsable(keys, values)
    ensures AssignedByLines(ScanLines(Entries(keys, values))) == AssignedByEach(keys, values)
  {
    hide ScanLines, ExtraLines, KeyOk, Entries, AssignedByLines;
    if keys == [] {
      NoEntriesAssign(values);
    } else {
      OneEntryAssigns(keys, values);
      EntriesAssign(keys[1..], values);
    }
  }

  lemma NoEntriesAssign(values: Values)
    ensures AssignedByLines(ScanLines(Entries([], values))) == {}
  {
  }

  lemma {:induction false} EachAssignsIff(keys: seq<string>, values: Values, all: set<string>)
    requires forall i | 0 <= i < |keys| :: keys[i] in values
    ensures forall i | 0 <= i < |keys| :: keys[i] in AssignedByEach(keys, values)
    ensures AssignedByEach(keys, values) <= all <==>
            forall i | 0 <= i < |keys| :: keys[i] in all && AssignedByLines(ExtraLines(values[keys[i]])) <= all
  {
    hide ExtraLines, AssignedByLines;
    if keys != [] { EachAssignsIff(keys[1..], values, all); }
  }

  // Neither the role nor a value adds a line that assigns a further key.
  ghost predicate AddsNoKey(rec: Recommendation) {
    && AssignedByLines(HeaderLines(rec)) <= rec.sysctls.Keys
    && forall key | key in rec.sysctls :: AssignedByLines(ExtraLines(rec.sysctls[key])) <= rec.sysctls.Keys
  }

  // For every map with usable keys and every role: loading the rendered file can assign all
  // keys of the map, and no others exactly if neither the role nor a value adds one.
  lemma AssignsItsKeysIff(rec: Recommendation)
    requires forall key | key in rec.sysctls :: KeyOk(key)
    ensures rec.sysctls.Keys <= AssignedKeys(Rendered(rec))
    ensures AssignedKeys(Rendered(rec)) == rec.sysctls.Keys <==> AddsNoKey(rec)
  {
    hide AssignedKeys, AssignedByLines, HeaderLines, ExtraLines, KeyOk, Entries, ScanLines, WithHeader, AssignedByEach;
    var keys := SortedKeys(rec.sysctls.Keys);
    HeaderAssigns(rec, Entries(keys, rec.sysctls));
    EntriesAssign(keys, rec.sysctls);
    EachAssignsIff(keys, rec.sysctls, rec.sysctls.Keys);
    forall key | key in rec.sysctls ensures key in AssignedKeys(Rendered(rec)) {
      assert key in keys;
    }
  }

  // Such a file passes the tool's own test: the thirteen keys, one value with a second line.
  lemma AllowedValueLeaks(rec: Recommendation, key: string, value: string, other: string, leaked: string)
    requires AllowlistTest(rec.sysctls) && key in rec.sysctls && rec.sysctls[key] == value + "\n" + EntryLine(other, leaked)
    requires '\n' !in value && '\n' !in leaked && KeyOk(other) && other !in MANAGED_SYSCTLS
    ensures other in AssignedKeys(Rendered(rec)) && !(AssignedKeys(Rendered(rec)) <= MANAGED_SYSCTLS)
  {
    hide AssignedKeys, Rendered, AssignedByLines, MANAGED_SYSCTLS, KeyOk, ScanLines, EntryLine;
    ManagedKeysAreOk();
    SecondLineAssigns(value, other, leaked);
    LinesAreAssigned(rec, key);
  }

  lemma SecondLineAssigns(value: string, other: string, leaked: string)
    requires '\n' !in value && '\n' !in leaked && KeyOk(other)
    ensures AssignedByLines(ExtraLines(value + "\n" + EntryLine(other, leaked))) == {other}
  {
    hide AssignedByLine, KeyOk, EntryLine, ParseLine, DropCR, ScanLines;
    var second := EntryLine(other, leaked);
    assert value + ['\n'] + second == value + "\n" + second;
    IndexOfFirst(value, '\n', second);
    assert LaterLines(value + "\n" + second) == second;
    EntryLineIsOneLine(other, leaked);
    ScanOneLine(second, "");
    NothingToScan();
    assert second + "\n" + "" == second + "\n";
    ParseScannedEntry(other, leaked);
    EntryStep(DropCR(second), [], map[]);
    assert [DropCR(second)] + [] == [DropCR(second)];
  }

  lemma {:induction false} EachIsAssigned(keys: seq<string>, values: Values, i: nat)
    requires i < |keys| && forall j | 0 <= j < |keys| :: keys[j] in values
    ensures AssignedByLines(ExtraLines(values[keys[i]])) <= AssignedByEach(keys, values)
  {
    hide ExtraLines, AssignedByLines;
    if i > 0 { EachIsAssigned(keys[1..], values, i - 1); }
  }

  lemma LinesAreAssigned(rec: Recommendation, key: string)
    requires key in rec.sysctls && forall k | k in rec.sysctls :: KeyOk(k)
    ensures AssignedByLines(ExtraLines(rec.sysctls[key])) <= AssignedKeys(Rendered(rec))
  {
    hide AssignedKeys, AssignedByLines, HeaderLines, ExtraLines, KeyOk, Entries, ScanLines, WithHeader, AssignedByEach;
    var keys := SortedKeys(rec.sysctls.Keys);
    HeaderAssigns(rec, Entries(keys, rec.sysctls));
    EntriesAssign(keys, rec.sysctls);
    assert key in keys;
    var i :| 0 <= i < |keys| && keys[i] == key;
    EachIsAssigned(keys, rec.sysctls, i);
  }

  // ---------- what the header says ----------

  lemma HeaderWords(rec: Recommendation)
    requires Words([rec.input.role])
    ensures var b, r, m := FormatInt(rec.input.bandwidthMbps), FormatInt(rec.input.rttMillis), FormatInt(rec.memoryMB);
            Words(["#", "role=" + rec.input.role, "bandwidth=" + b + "Mbps", "rtt=" + r + "ms", "memory=" + m + "MB"])
  {
    hide FormatInt;
    IntIsWord(rec.input.bandwidthMbps);
    IntIsWord(rec.input.rttMillis);
    IntIsWord(rec.memoryMB);
    assert Word(rec.input.role) by { assert [rec.input.role][0] == rec.input.role; }
    WordsJoin("role=", rec.input.role, "");
    WordsJoin("bandwidth=", FormatInt(rec.input.bandwidthMbps), "Mbps");
    WordsJoin("rtt=", FormatInt(rec.input.rttMillis), "ms");
    WordsJoin("memory=", FormatInt(rec.memoryMB), "MB");
    assert "role=" + rec.input.role + "" == "role=" + rec.input.role;
  }

  lemma IntIsWord(n: int)
    ensures Word(FormatInt(n))
  {
    FormatNatIsWord(if n < 0 then -n else n);
  }

  lemma WordsJoin(a: string, b: string, c: string)
    requires Word(a) && Word(b) && (c == "" || Word(c))
    ensures Word(a + b + c)
  {
  }

  // The second line of a rendered file names role, bandwidth, round-trip time and memory.
  lemma SecondLineNames(rec: Recommendation)
    requires Word(rec.input.role)
    ensures var b, r, m := FormatInt(rec.input.bandwidthMbps), FormatInt(rec.input.rttMillis), FormatInt(rec.memoryMB);
            && |ScanLines(Rendered(rec))| >= 2
            && Fields(ScanLines(Rendered(rec))[1]) ==
                 ["#", "role=" + rec.input.role, "bandwidth=" + b + "Mbps", "rtt=" + r + "ms", "memory=" + m + "MB"]
  {
    hide FormatInt, ScanLines, Fields, DropCR, HeaderLine, TITLE_LINE, Entries, SortedKeys;
    var b, r, m := FormatInt(rec.input.bandwidthMbps), FormatInt(rec.input.rttMillis), FormatInt(rec.memoryMB);
    assert '\n' !in rec.input.role by { WordHoldsNoNewline(rec.input.role); }
    HeaderLinesScan(rec, Entries(SortedKeys(rec.sysctls.Keys), rec.sysctls));
    FieldsOfDropCR(HeaderLine(rec));
    HeaderIsJoined(rec, b, r, m);
    HeaderWords(rec);
    FieldsOfJoin(["#", "role=" + rec.input.role, "bandwidth=" + b + "Mbps", "rtt=" + r + "ms", "memory=" + m + "MB"]);
  }

  lemma WordHoldsNoNewline(w: string)
    requires Word(w)
    ensures '\n' !in w
  {
  }

  lemma HeaderIsJoined(rec: Recommendation, b: string, r: string, m: string)
    requires b == FormatInt(rec.input.bandwidthMbps) && r == FormatInt(rec.input.rttMillis) && m == FormatInt(rec.memoryMB)
    ensures HeaderLine(rec) ==
            Join(["#", "role=" + rec.input.role, "bandwidth=" + b + "Mbps", "rtt=" + r + "ms", "memory=" + m + "MB"])
  {
    hide FormatInt, Join;
    var r0, r1, r2, r3 := "role=" + rec.input.role, "bandwidth=" + b + "Mbps", "rtt=" + r + "ms", "memory=" + m + "MB";
    JoinFive("#", r0, r1, r2, r3);
    assert "# role=" + rec.input.role + " bandwidth=" == "#" + " " + r0 + " " + "bandwidth=";
    assert "Mbps rtt=" == "Mbps" + " " + "rtt=" && "ms memory=" == "ms" + " " + "memory=";
    assert HeaderLine(rec) == "#" + " " + r0 + " " + r1 + " " + r2 + " " + r3;
  }

  lemma JoinFive(a: string, b: string, c: string, d: string, e: string)
    ensures Join([a, b, c, d, e]) == a + " " + b + " " + c + " " + d + " " + e
  {
    assert [a, b, c, d, e][1..] == [b, c, d, e] && [b, c, d, e][1..] == [c, d, e] && [c, d, e][1..] == [d, e] && [d, e][1..] == [e];
    assert Join([d, e]) == d + " " + e;
    assert Join([c, d, e]) == c + " " + (d + " " + e);
    assert Join([b, c, d, e]) == b + " " + (c + " " + (d + " " + e));
  }

  // ---------- the exact condition ----------

  ghost predicate ComesBack(rec: Recommendation) {
    && Harmless(HeaderLines(rec), rec.sysctls.Keys)
    && forall key | key in rec.sysctls :: KeyOk(key) && OnFirstLine(rec.sysctls[key])
  }

  lemma ComesBackParses(rec: Recommendation)
    requires ComesBack(rec)
    ensures Parsed(Rendered(rec)) == Some(Normalized(rec.sysctls))
  {
    hide Harmless, HeaderLines, KeyOk, OnFirstLine, Entries, ScanLines, WithHeader, Parsed, Normalize, ParseLines;
    var keys := SortedKeys(rec.sysctls.Keys);
    HeaderParse(rec, Entries(keys, rec.sysctls));
    HarmlessIff(HeaderLines(rec), map[], rec.sysctls.Keys);
    var header := ParseLines(HeaderLines(rec), map[]).value;
    assert AllUsable(keys, rec.sysctls);
    ParseFirstLines(keys, rec.sysctls, header);
    assert header + NormalizedOn(keys, rec.sysctls) == Normalized(rec.sysctls) by {
      assert NormalizedOn(keys, rec.sysctls).Keys == rec.sysctls.Keys;
    }
  }

  lemma ParsedComesBack(rec: Recommendation)
    requires Parsed(Rendered(rec)) == Some(Normalized(rec.sysctls))
    ensures ComesBack(rec)
  {
    hide Harmless, HeaderLines, KeyOk, OnFirstLine, Entries, ScanLines, WithHeader, Normalize, ParseLines;
    var keys := SortedKeys(rec.sysctls.Keys);
    SortedKeysDistinct(rec.sysctls.Keys);
    HeaderParse(rec, Entries(keys, rec.sysctls));
    ScannedLinesHoldNoNewline(Rendered(rec));
    ParsedQualifies(ScanLines(Rendered(rec)), map[]);
    var m := Normalized(rec.sysctls);
    assert forall key | key in rec.sysctls :: key in m;
    assert AllUsable(keys, rec.sysctls);
    var header := ParseLines(HeaderLines(rec), map[]).value;
    AllOnFirstLine(keys, rec.sysctls, header);
    assert forall key | key in rec.sysctls :: key in keys;
    ParseFirstLines(keys, rec.sysctls, header);
    assert header.Keys <= m.Keys;
    HarmlessIff(HeaderLines(rec), map[], rec.sysctls.Keys);
  }

  // For every map and role: the rendered file parses back to the map exactly if every key
  // is usable, every value is on its first line, and the role adds no line but ones that
  // are skipped or assign a key of the map.
  lemma RoundTripIff(rec: Recommendation)
    ensures Parsed(Rendered(rec)) == Some(Normalized(rec.sysctls)) <==> ComesBack(rec)
  {
    hide Parsed, Rendered, Normalized, ComesBack;
    if ComesBack(rec) { ComesBackParses(rec); }
    if Parsed(Rendered(rec)) == Some(Normalized(rec.sysctls)) { ParsedComesBack(rec); }
  }

  // A trailing line feed is harmless, though it is a line feed.
  lemma TrailingLineFeedComesBack(rec: Recommendation, key: string, value: string)
    requires KeyOk(key) && '\n' !in value && !Blank(value) && '\n' !in rec.input.role
    requires rec.sysctls == map[key := value + "\n"]
    ensures Parsed(Rendered(rec)) == Some(Normalized(rec.sysctls))
  {
    hide Parsed, Rendered, Normalized, KeyOk, Blank, Harmless;
    OneLineRoleIsHarmless(rec);
    assert value + ['\n'] + "" == value + "\n";
    IndexOfFirst(value, '\n', "");
    assert FirstLine(value + "\n") == value;
    assert Blank(LaterLines(value + "\n")) by { NothingIsBlank(); }
    ComesBackParses(rec);
  }

  lemma NothingIsBlank()
    ensures Blank("")
  {
  }

  // A second line in the role becomes an assignment: the text that follows the role in the
  // header holds an equals sign.
  lemma RoleLineBreakLeaks(rec: Recommendation, first: string, second: string)
    requires rec.input.role == first + "\n" + second && '\n' !in first && KeyOk(second)
    requires second + " bandwidth" !in rec.sysctls
    ensures second + " bandwidth" in AssignedKeys(Rendered(rec))
    ensures Parsed(Rendered(rec)) != Some(Normalized(rec.sysctls))
  {
    hide Parsed, AssignedKeys, Rendered, Normalized, ComesBack, KeyOk, AssignedByLines, AssignedByLine, ParseLine;
    SecondHeaderLine(rec, first, second);
    EntryAssigns(HeaderLines(rec)[1]);
    AssignedAmong(HeaderLines(rec), 1);
    HeaderAssigns(rec, Entries(SortedKeys(rec.sysctls.Keys), rec.sysctls));
    assert Rendered(rec) == WithHeader(rec, Entries(SortedKeys(rec.sysctls.Keys), rec.sysctls)) by { RenderedIs(rec); }
    RoundTripIff(rec);
    assert !ComesBack(rec) by { NotHarmless(rec, second); }
  }

  lemma RenderedIs(rec: Recommendation)
    ensures Rendered(rec) == WithHeader(rec, Entries(SortedKeys(rec.sysctls.Keys), rec.sysctls))
  {
  }

  lemma NotHarmless(rec: Recommendation, second: string)
    requires |HeaderLines(rec)| == 2 && ParseLine(HeaderLines(rec)[1]).Entry?
    requires ParseLine(HeaderLines(rec)[1]).key == second + " bandwidth" && second + " bandwidth" !in rec.sysctls
    ensures !ComesBack(rec)
  {
    hide ParseLine, HeaderLines, KeyOk, OnFirstLine;
  }

  function Figures(rec: Recommendation): string {
    FormatInt(rec.input.bandwidthMbps) + "Mbps rtt=" + FormatInt(rec.input.rttMillis) + "ms memory=" + FormatInt(rec.memoryMB) + "MB"
  }

  lemma SecondHeaderLine(rec: Recommendation, first: string, second: string)
    requires rec.input.role == first + "\n" + second && '\n' !in first && KeyOk(second)
    ensures |HeaderLines(rec)| == 2 && ParseLine(HeaderLines(rec)[1]).Entry?
    ensures ParseLine(HeaderLines(rec)[1]).key == second + " bandwidth"
  {
    hide ScanLines, ParseLine, FormatInt;
    var line := second + " bandwidth=" + Figures(rec);
    FiguresHoldNoNewline(rec);
    assert '\n' !in second;
    assert HeaderLine(rec) == "# role=" + first + "\n" + line;
    assert HeaderLine(rec) + "\n" == "# role=" + first + "\n" + (line + "\n");
    ScanOneLine("# role=" + first, line + "\n");
    ScanOneLine(line, "");
    NothingToScan();
    assert line + "\n" + "" == line + "\n";
    SecondLineParses(second, Figures(rec));
  }

  lemma FiguresHoldNoNewline(rec: Recommendation)
    ensures '\n' !in Figures(rec) && Figures(rec) != "" && Figures(rec)[|Figures(rec)| - 1] == 'B'
    ensures !Blank(Figures(rec))
  {
    hide FormatInt;
    NumbersHoldNoNewline(rec.input.bandwidthMbps);
    NumbersHoldNoNewline(rec.input.rttMillis);
    NumbersHoldNoNewline(rec.memoryMB);
    assert !IsSpace(Figures(rec)[|Figures(rec)| - 1]);
  }

  lemma SecondLineParses(second: string, figures: string)
    requires KeyOk(second) && figures != "" && figures[|figures| - 1] == 'B' && !Blank(figures)
    ensures ParseLine(DropCR(second + " bandwidth=" + figures)).Entry?
    ensures ParseLine(DropCR(second + " bandwidth=" + figures)).key == second + " bandwidth"
  {
    hide Fields, Join, TrimLeft, TrimRight;
    var line, key := second + " bandwidth=" + figures, second + " bandwidth";
    assert line[|line| - 1] == 'B' && line[0] == second[0];
    assert DropCR(line) == line;
    assert Trimmed(line) && Trimmed(key);
    TrimTrimmed(line);
    TrimTrimmed(key);
    assert '=' !in key;
    assert line == key + ['='] + figures;
    IndexOfFirst(key, '=', figures);
    assert line[..|key|] == key && line[|key| + 1..] == figures;
    NormalizeBlankIff(figures);
  }
}
