/**
 Byte strings as the tool handles them: white space, fields, trimming, cutting and
 line scanning.  The alphabet is ASCII; each function has the meaning of the Go
 library function it is named after.
 */
module Text {

  predicate IsSpace(c: char) {
    c == ' ' || c == '\t' || c == '\n' || c == '\r' || c == '\U{0B}' || c == '\U{0C}'
  }

  predicate Blank(s: string) {
    forall i | 0 <= i < |s| :: IsSpace(s[i])
  }

  lemma Associate(a: string, b: string, c: string)
    ensures (a + b) + c == a + (b + c)
  {
  }

  // ---------- trimming ----------

  function TrimLeft(s: string): string {
    if s != "" && IsSpace(s[0]) then TrimLeft(s[1..]) else s
  }

  function TrimRight(s: string): string {
    if s != "" && IsSpace(s[|s| - 1]) then TrimRight(s[..|s| - 1]) else s
  }

  function TrimSpace(s: string): string {
    TrimRight(TrimLeft(s))
  }

  predicate Trimmed(s: string) {
    s == "" || (!IsSpace(s[0]) && !IsSpace(s[|s| - 1]))
  }

  lemma {:induction false} TrimLeftShape(s: string)
    ensures TrimLeft(s) == "" || !IsSpace(TrimLeft(s)[0])
    ensures |TrimLeft(s)| <= |s| && TrimLeft(s) == s[|s| - |TrimLeft(s)|..]
    ensures Blank(s[..|s| - |TrimLeft(s)|])
  {
    if s != "" && IsSpace(s[0]) {
      TrimLeftShape(s[1..]);
      var k := |s| - |TrimLeft(s)|;
      assert s[1..][k - 1..] == s[k..];
      forall i | 0 <= i < k ensures IsSpace(s[..k][i]) {
        if i > 0 { assert s[..k][i] == s[1..][..k - 1][i - 1]; }
      }
    }
  }

  lemma {:induction false} TrimRightShape(s: string)
    ensures TrimRight(s) == "" || !IsSpace(TrimRight(s)[|TrimRight(s)| - 1])
    ensures |TrimRight(s)| <= |s| && TrimRight(s) == s[..|TrimRight(s)|]
    ensures Blank(s[|TrimRight(s)|..])
  {
    if s != "" && IsSpace(s[|s| - 1]) {
      var t := s[..|s| - 1];
      TrimRightShape(t);
      var n := |TrimRight(s)|;
      forall i | 0 <= i < |s| - n ensures IsSpace(s[n..][i]) {
        if i < |s| - n - 1 { assert s[n..][i] == t[n..][i]; }
      }
    }
  }

  // How much white space leads.
  function Leading(s: string): (k: nat)
    ensures k <= |s|
  {
    TrimLeftShape(s);
    |s| - |TrimLeft(s)|
  }

  lemma TrimSpaceShape(s: string)
    ensures Trimmed(TrimSpace(s))
    ensures Leading(s) + |TrimSpace(s)| <= |s|
    ensures TrimSpace(s) == s[Leading(s)..][..|TrimSpace(s)|]
  {
    TrimLeftShape(s);
    TrimRightShape(TrimLeft(s));
  }

  lemma TrimTrimmed(s: string)
    requires Trimmed(s)
    ensures TrimSpace(s) == s
  {
  }

  // A tail with something in it shields everything before it from trimming.
  lemma {:induction false} TrimRightAppend(a: string, b: string)
    requires !Blank(b)
    ensures TrimRight(a + b) == a + TrimRight(b)
  {
    var s := a + b;
    assert b != "";
    assert s[|s| - 1] == b[|b| - 1];
    if IsSpace(b[|b| - 1]) {
      assert s[..|s| - 1] == a + b[..|b| - 1];
      assert !Blank(b[..|b| - 1]) by {
        var i :| 0 <= i < |b| && !IsSpace(b[i]);
        assert b[..|b| - 1][i] == b[i];
      }
      TrimRightAppend(a, b[..|b| - 1]);
    }
  }

  // ---------- fields and normalisation ----------

  predicate Word(w: string) {
    w != "" && forall i | 0 <= i < |w| :: !IsSpace(w[i])
  }

  predicate Words(ws: seq<string>) {
    forall i | 0 <= i < |ws| :: Word(ws[i])
  }

  // The maximal runs of non-space characters, in order.
  function Fields(s: string): (ws: seq<string>)
    ensures s != "" && !IsSpace(s[0]) ==> ws != []
    ensures Words(ws)
  {
    if s == "" then []
    else if IsSpace(s[0]) then Fields(s[1..])
    else if |s| == 1 || IsSpace(s[1]) then [[s[0]]] + Fields(s[1..])
    else
      var rest := Fields(s[1..]);
      [[s[0]] + rest[0]] + rest[1..]
  }

  function Join(ws: seq<string>): string {
    if ws == [] then "" else if |ws| == 1 then ws[0] else ws[0] + " " + Join(ws[1..])
  }

  function Normalize(s: string): string {
    Join(Fields(s))
  }

  lemma {:induction false} FieldsOfWord(w: string, tail: string)
    requires Word(w)
    requires tail == "" || IsSpace(tail[0])
    ensures Fields(w + tail) == [w] + Fields(tail)
  {
    var s := w + tail;
    assert s[1..] == w[1..] + tail;
    if |w| == 1 {
      assert w == [w[0]];
      assert s[1..] == tail;
    } else {
      forall i | 0 <= i < |w[1..]| ensures !IsSpace(w[1..][i]) { assert w[1..][i] == w[i + 1]; }
      FieldsOfWord(w[1..], tail);
      assert s[1] == w[1];
      assert [w[0]] + w[1..] == w;
    }
  }

  // Six characters separate words, and no other does.
  lemma SeparatorsAre(a: string, c: char, b: string)
    requires Word(a) && Word(b)
    ensures Fields(a + [c] + b) ==
            if c in {' ', '\t', '\n', '\r', '\U{0B}', '\U{0C}'} then [a, b] else [a + [c] + b]
  {
    FieldsOfWord(b, "");
    assert b + "" == b;
    if IsSpace(c) {
      var tail := [c] + b;
      assert tail[1..] == b;
      FieldsOfWord(a, tail);
      assert a + tail == a + [c] + b;
    } else {
      var w := a + [c] + b;
      FieldsOfWord(w, "");
      assert w + "" == w;
    }
  }

  lemma {:induction false} FieldsOfJoin(ws: seq<string>)
    requires Words(ws)
    ensures Fields(Join(ws)) == ws
  {
    if ws == [] {
    } else if |ws| == 1 {
      FieldsOfWord(ws[0], "");
      assert ws[0] + "" == ws[0];
      assert ws == [ws[0]];
    } else {
      var tail := " " + Join(ws[1..]);
      assert Join(ws) == ws[0] + tail;
      FieldsOfWord(ws[0], tail);
      assert tail[1..] == Join(ws[1..]);
      FieldsOfJoin(ws[1..]);
      assert ws == [ws[0]] + ws[1..];
    }
  }

  // Normalising twice changes nothing, and two strings normalise alike
  // exactly when they hold the same fields.
  lemma NormalizeCanonical(a: string, b: string)
    ensures Fields(Normalize(a)) == Fields(a)
    ensures Normalize(Normalize(a)) == Normalize(a)
    ensures Normalize(a) == Normalize(b) <==> Fields(a) == Fields(b)
  {
    FieldsOfJoin(Fields(a));
    FieldsOfJoin(Fields(b));
  }

  lemma {:induction false} FieldsBlankIff(s: string)
    ensures Fields(s) == [] <==> Blank(s)
  {
    if s != "" {
      FieldsBlankIff(s[1..]);
      if IsSpace(s[0]) {
        assert Blank(s) <==> Blank(s[1..]) by {
          if Blank(s[1..]) {
            forall i | 0 <= i < |s| ensures IsSpace(s[i]) {
              if i > 0 { assert s[i] == s[1..][i - 1]; }
            }
          }
        }
      }
    }
  }

  lemma NormalizeBlankIff(s: string)
    ensures Normalize(s) == "" <==> Blank(s)
  {
    FieldsBlankIff(s);
    if Fields(s) != [] { assert Word(Fields(s)[0]); }
  }

  lemma {:induction false} FieldsDropsTail(s: string, t: string)
    requires Blank(t)
    ensures Fields(s + t) == Fields(s)
  {
    var u := s + t;
    if s == "" {
      assert u == t;
      FieldsBlankIff(t);
    } else {
      assert u[1..] == s[1..] + t;
      FieldsDropsTail(s[1..], t);
      if |s| > 1 {
        assert u[1] == s[1];
      } else if t != "" {
        assert u[1] == t[0];
      }
    }
  }

  lemma {:induction false} FieldsDropsHead(t: string, s: string)
    requires Blank(t)
    ensures Fields(t + s) == Fields(s)
  {
    if t == "" {
      assert t + s == s;
    } else {
      assert (t + s)[1..] == t[1..] + s;
      FieldsDropsHead(t[1..], s);
    }
  }

  // Trimming a command's output loses no field.
  lemma FieldsOfTrim(s: string)
    ensures Fields(TrimSpace(s)) == Fields(s)
    ensures Fields(TrimRight(s)) == Fields(s)
  {
    FieldsOfTrimRight(s);
    TrimLeftShape(s);
    var k := Leading(s);
    assert s == s[..k] + s[k..];
    FieldsDropsHead(s[..k], s[k..]);
    FieldsOfTrimRight(s[k..]);
  }

  lemma FieldsOfTrimRight(s: string)
    ensures Fields(TrimRight(s)) == Fields(s)
  {
    TrimRightShape(s);
    var n := |TrimRight(s)|;
    assert s == s[..n] + s[n..];
    FieldsDropsTail(s[..n], s[n..]);
  }

  // ---------- cutting and scanning ----------

  function IndexOf(s: string, c: char): (n: nat)
    ensures n <= |s|
    ensures n < |s| ==> s[n] == c
    ensures forall i | 0 <= i < n :: s[i] != c
  {
    if s == "" || s[0] == c then 0 else 1 + IndexOf(s[1..], c)
  }

  lemma IndexOfFirst(a: string, c: char, b: string)
    requires c !in a
    ensures IndexOf(a + [c] + b, c) == |a|
  {
    var s := a + [c] + b;
    assert s[|a|] == c;
    forall i | 0 <= i < |a| ensures s[i] != c { assert s[i] == a[i] && a[i] in a; }
  }

  function DropCR(line: string): string {
    if line != "" && line[|line| - 1] == '\r' then line[..|line| - 1] else line
  }

  // The lines a bufio scanner delivers.
  function ScanLines(s: string): seq<string>
    decreases |s|
  {
    if s == "" then []
    else
      var n := IndexOf(s, '\n');
      if n == |s| then [DropCR(s)] else [DropCR(s[..n])] + ScanLines(s[n + 1..])
  }

  lemma ScanOneLine(line: string, rest: string)
    requires '\n' !in line
    ensures ScanLines(line + "\n" + rest) == [DropCR(line)] + ScanLines(rest)
  {
    var s := line + "\n" + rest;
    assert s == line + ['\n'] + rest;
    IndexOfFirst(line, '\n', rest);
    assert s[..|line|] == line && s[|line| + 1..] == rest;
  }

  lemma {:induction false} ScannedLinesHoldNoNewline(s: string)
    ensures forall i | 0 <= i < |ScanLines(s)| :: '\n' !in ScanLines(s)[i]
    decreases |s|
  {
    if s != "" {
      var n := IndexOf(s, '\n');
      assert '\n' !in s[..n];
      if n < |s| { ScannedLinesHoldNoNewline(s[n + 1..]); }
    }
  }

  predicate HasPrefix(s: string, p: string) {
    |p| <= |s| && s[..|p|] == p
  }

  predicate Contains(s: string, sub: string) {
    exists i | 0 <= i <= |s| - |sub| :: OccursAt(s, sub, i)
  }

  predicate OccursAt(s: string, sub: string, i: nat)
    requires i + |sub| <= |s|
  {
    s[i..i + |sub|] == sub
  }

  predicate WordPresent(values: string, expected: string) {
    expected in Fields(values)
  }
}
