/**
 Reading `tc qdisc show`: which discipline is at the root, which ones are its leaves,
 and whether pacing by fq is ready; and which differences in the text cannot matter.
 */
module Qdiscs {
  import opened Wrappers
  import opened Text
  import opened Sorting

  datatype Qdisc = Qdisc(raw: string, rootKind: string, leaves: seq<string>, fqReady: bool)

  // strings.Split at line feeds.
  function Split(s: string): (lines: seq<string>)
    ensures lines != []
    decreases |s|
  {
    var n := IndexOf(s, '\n');
    if n == |s| then [s] else [s[..n]] + Split(s[n + 1..])
  }

  function JoinLines(lines: seq<string>): string
    requires lines != []
  {
    if |lines| == 1 then lines[0] else lines[0] + "\n" + JoinLines(lines[1..])
  }

  lemma {:induction false} SplitJoin(lines: seq<string>)
    requires lines != [] && forall i | 0 <= i < |lines| :: '\n' !in lines[i]
    ensures Split(JoinLines(lines)) == lines
  {
    var s := JoinLines(lines);
    if |lines| > 1 {
      assert s == lines[0] + ['\n'] + JoinLines(lines[1..]);
      IndexOfFirst(lines[0], '\n', JoinLines(lines[1..]));
      assert s[..|lines[0]|] == lines[0] && s[|lines[0]| + 1..] == JoinLines(lines[1..]);
      SplitJoin(lines[1..]);
    }
  }

  // ---------- what one line says ----------

  function FieldAfter(values: seq<string>, expected: string): Option<string> {
    if |values| < 2 then None
    else if values[0] == expected then Some(values[1])
    else FieldAfter(values[1..], expected)
  }

  predicate Describes(fields: seq<string>) {
    |fields| >= 2 && fields[0] == "qdisc"
  }

  const OUTSIDE_KINDS: set<string> := {"ingress", "clsact"}

  const INGRESS_HANDLE := "ffff:"

  predicate IsLeaf(fields: seq<string>) {
    && Describes(fields) && fields[1] !in OUTSIDE_KINDS
    && FieldAfter(fields, "parent").Some? && !HasPrefix(FieldAfter(fields, "parent").value, INGRESS_HANDLE)
  }

  predicate IsRoot(fields: seq<string>) {
    Describes(fields) && "root" in fields
  }

  datatype Role = Root | Leaf

  predicate Plays(line: string, role: Role) {
    if role == Root then IsRoot(Fields(line)) else IsLeaf(Fields(line))
  }

  function KindOf(line: string): string {
    if Describes(Fields(line)) then Fields(line)[1] else ""
  }

  // The kinds of the lines that play a role, in their order.
  function Kinds(lines: seq<string>, role: Role): seq<string> {
    if lines == [] then []
    else if Plays(lines[0], role) then [KindOf(lines[0])] + Kinds(lines[1..], role)
    else Kinds(lines[1..], role)
  }

  function RootKind(lines: seq<string>): string {
    if Kinds(lines, Root) == [] then "" else Kinds(lines, Root)[0]
  }

  function Leaves(lines: seq<string>): seq<string> {
    Sort(Kinds(lines, Leaf))
  }

  predicate Ready(lines: seq<string>) {
    || RootKind(lines) == "fq"
    || (RootKind(lines) == "mq" && Kinds(lines, Leaf) != [] && forall kind | kind in Kinds(lines, Leaf) :: kind == "fq")
  }

  // ---------- the parser ----------

  method ContainsField(values: seq<string>, expected: string) returns (found: bool)
    ensures found <==> expected in values
  {
    for i := 0 to |values|
      invariant expected !in values[..i]
    {
      if values[i] == expected { return true; }
    }
    return false;
  }

  method FindFieldAfter(values: seq<string>, expected: string) returns (r: Option<string>)
    ensures r == FieldAfter(values, expected)
  {
    var i := 0;
    assert values[0..] == values;
    while i + 1 < |values|
      invariant 0 <= i <= |values|
      invariant FieldAfter(values, expected) == FieldAfter(values[i..], expected)
    {
      assert values[i..][1..] == values[i + 1..];
      if values[i] == expected { return Some(values[i + 1]); }
      i := i + 1;
    }
    return None;
  }

  lemma {:induction false} KindsAppend(a: seq<string>, b: seq<string>, role: Role)
    ensures Kinds(a + b, role) == Kinds(a, role) + Kinds(b, role)
  {
    hide Plays;
    if a == [] {
      assert a + b == b;
    } else {
      assert (a + b)[1..] == a[1..] + b;
      KindsAppend(a[1..], b, role);
    }
  }

  lemma KindsNext(lines: seq<string>, i: nat, role: Role)
    requires i < |lines|
    ensures Kinds(lines[..i + 1], role) ==
            Kinds(lines[..i], role) + (if Plays(lines[i], role) then [KindOf(lines[i])] else [])
  {
    hide Fields, IsRoot, IsLeaf;
    assert lines[..i + 1] == lines[..i] + [lines[i]];
    KindsAppend(lines[..i], [lines[i]], role);
  }

  lemma KindsAreWords(lines: seq<string>, role: Role)
    ensures "" !in Kinds(lines, role)
  {
    hide Fields;
    if lines != [] {
      KindsAreWords(lines[1..], role);
      if Plays(lines[0], role) { assert Word(Fields(lines[0])[1]); }
    }
  }

  // The first root line decides.
  lemma RootNext(lines: seq<string>, i: nat)
    requires i < |lines|
    ensures RootKind(lines[..i + 1]) ==
            if RootKind(lines[..i]) == "" && Plays(lines[i], Root) then KindOf(lines[i]) else RootKind(lines[..i])
  {
    hide Plays, KindOf, Kinds;
    KindsNext(lines, i, Root);
    KindsAreWords(lines[..i], Root);
    var before := Kinds(lines[..i], Root);
    assert before != [] ==> before[0] in before;
  }

  method ParseQdisc(raw: string) returns (q: Qdisc)
    ensures q == Qdisc(TrimSpace(raw), RootKind(Split(raw)), Leaves(Split(raw)), Ready(Split(raw)))
  {
    hide Fields, FieldAfter, HasPrefix, TrimSpace, Sort, Split, Kinds, RootKind;
    var lines := Split(raw);
    var rootKind, leaves, fqReady := "", [], false;
    NoLines();
    assert lines[..0] == [];
    for i := 0 to |lines|
      invariant rootKind == RootKind(lines[..i])
      invariant leaves == Kinds(lines[..i], Leaf)
    {
      RootNext(lines, i);
      KindsNext(lines, i, Leaf);
      var fields := Fields(lines[i]);
      if |fields| < 2 || fields[0] != "qdisc" { continue; }
      var kind := fields[1];
      var root := ContainsField(fields, "root");
      if root && rootKind == "" { rootKind := kind; }
      var parent := FindFieldAfter(fields, "parent");
      if parent.Some? && !HasPrefix(parent.value, INGRESS_HANDLE) && kind != "ingress" && kind != "clsact" {
        leaves := leaves + [kind];
      }
    }
    assert lines[..|lines|] == lines;
    ghost var kinds := leaves;
    leaves := Sort(leaves);
    SameElements(leaves, kinds);
    if rootKind == "fq" {
      fqReady := true;
    } else if rootKind == "mq" && |leaves| > 0 {
      fqReady := true;
      for j := 0 to |leaves|
        invariant fqReady && forall k | 0 <= k < j :: leaves[k] == "fq"
      {
        assert leaves[j] in kinds;
        if leaves[j] != "fq" { fqReady := false; break; }
      }
    }
    q := Qdisc(TrimSpace(raw), rootKind, leaves, fqReady);
  }

  lemma NoLines()
    ensures RootKind([]) == "" && Kinds([], Leaf) == []
  {
  }

  lemma SameElements(a: seq<string>, b: seq<string>)
    requires multiset(a) == multiset(b)
    ensures |a| == |b| && forall x :: x in a <==> x in b
  {
    assert |a| == |multiset(a)| && |b| == |multiset(b)|;
    assert forall x :: x in a <==> x in multiset(a);
    assert forall x :: x in b <==> x in multiset(b);
  }

  // ---------- what cannot matter ----------

  lemma {:induction false} KindsBag(a: seq<string>, b: seq<string>, role: Role)
    requires multiset(a) == multiset(b)
    ensures multiset(Kinds(a, role)) == multiset(Kinds(b, role))
  {
    hide Plays;
    SameElements(a, b);
    if a != [] {
      assert a[0] in b;
      var j :| 0 <= j < |b| && b[j] == a[0];
      var rest := b[..j] + b[j + 1..];
      BagWithout(b, j);
      BagOfTail(a);
      KindsBag(a[1..], rest, role);
      KindsWithout(b, j, role);
    }
  }

  lemma BagWithout(b: seq<string>, j: nat)
    requires j < |b|
    ensures multiset(b[..j] + b[j + 1..]) == multiset(b) - multiset{b[j]}
  {
    assert b == b[..j] + [b[j]] + b[j + 1..];
  }

  lemma KindsWithout(b: seq<string>, j: nat, role: Role)
    requires j < |b|
    ensures multiset(Kinds(b, role)) ==
            multiset(Kinds(b[..j] + b[j + 1..], role)) + (if Plays(b[j], role) then multiset{KindOf(b[j])} else multiset{})
  {
    hide Fields, IsRoot, IsLeaf;
    assert b == b[..j] + ([b[j]] + b[j + 1..]);
    KindsAppend(b[..j], [b[j]] + b[j + 1..], role);
    KindsAppend([b[j]], b[j + 1..], role);
    KindsAppend(b[..j], b[j + 1..], role);
  }

  // All root lines agree on the kind; in particular there may be only one.
  predicate RootsAgree(lines: seq<string>) {
    forall kind | kind in Kinds(lines, Root) :: kind == RootKind(lines)
  }

  predicate SameReading(a: seq<string>, b: seq<string>) {
    RootKind(a) == RootKind(b) && Leaves(a) == Leaves(b) && Ready(a) == Ready(b)
  }

  lemma LeavesForgetOrder(a: seq<string>, b: seq<string>)
    requires multiset(a) == multiset(b)
    ensures Leaves(a) == Leaves(b)
    ensures RootKind(a) == RootKind(b) ==> SameReading(a, b)
  {
    hide Kinds, Sort;
    KindsBag(a, b, Leaf);
    SortForgetsOrder(Kinds(a, Leaf), Kinds(b, Leaf));
    SameElements(Kinds(a, Leaf), Kinds(b, Leaf));
    assert Kinds(a, Leaf) != [] <==> Kinds(b, Leaf) != [];
    assert (forall kind | kind in Kinds(a, Leaf) :: kind == "fq") <==> (forall kind | kind in Kinds(b, Leaf) :: kind == "fq");
  }

  lemma PermutedAlike(a: seq<string>, b: seq<string>)
    requires multiset(a) == multiset(b) && RootsAgree(a)
    ensures SameReading(a, b)
  {
    hide Kinds, Leaves, Ready;
    KindsBag(a, b, Root);
    SameElements(Kinds(a, Root), Kinds(b, Root));
    assert Kinds(b, Root) != [] ==> Kinds(b, Root)[0] in Kinds(b, Root);
    LeavesForgetOrder(a, b);
  }

  // A line moved to the front decides the root kind if it is a root line.
  lemma FrontRootWins(a: seq<string>, j: nat)
    requires j < |a| && Plays(a[j], Root)
    ensures var b := [a[j]] + (a[..j] + a[j + 1..]);
            multiset(b) == multiset(a) && RootKind(b) == KindOf(a[j])
  {
    hide Fields, IsRoot;
    BagWithout(a, j);
    var b := [a[j]] + (a[..j] + a[j + 1..]);
    assert b[1..] == a[..j] + a[j + 1..];
  }

  lemma {:induction false} KindHasLine(lines: seq<string>, role: Role, kind: string) returns (j: nat)
    requires kind in Kinds(lines, role)
    ensures j < |lines| && Plays(lines[j], role) && KindOf(lines[j]) == kind
  {
    hide Fields, IsRoot, IsLeaf;
    if Plays(lines[0], role) && KindOf(lines[0]) == kind {
      j := 0;
    } else {
      var i := KindHasLine(lines[1..], role, kind);
      j := i + 1;
    }
  }

  // The reading survives every reordering of the lines exactly when the root lines agree.
  lemma OrderMattersIff(a: seq<string>)
    ensures RootsAgree(a) <==> forall b :: multiset(b) == multiset(a) ==> SameReading(a, b)
  {
    hide Kinds, Leaves, Ready, SameReading, Plays;
    if RootsAgree(a) {
      forall b | multiset(b) == multiset(a) ensures SameReading(a, b) { PermutedAlike(a, b); }
    } else {
      var kind :| kind in Kinds(a, Root) && kind != RootKind(a);
      var j := KindHasLine(a, Root, kind);
      FrontRootWins(a, j);
      var b := [a[j]] + (a[..j] + a[j + 1..]);
      DifferentRoots(a, b);
      assert multiset(b) == multiset(a);
    }
  }

  lemma DifferentRoots(a: seq<string>, b: seq<string>)
    requires RootKind(a) != RootKind(b)
    ensures !SameReading(a, b)
  {
  }

  // Lines about the ingress side, and lines that describe no discipline.
  predicate Ignorable(line: string) {
    var fields := Fields(line);
    Describes(fields) ==>
      && "root" !in fields
      && (fields[1] in OUTSIDE_KINDS
          || (FieldAfter(fields, "parent").Some? && HasPrefix(FieldAfter(fields, "parent").value, INGRESS_HANDLE)))
  }

  function Relevant(lines: seq<string>): seq<string> {
    if lines == [] then []
    else if Ignorable(lines[0]) then Relevant(lines[1..])
    else [lines[0]] + Relevant(lines[1..])
  }

  lemma {:induction false} RelevantKinds(lines: seq<string>, role: Role)
    ensures Kinds(Relevant(lines), role) == Kinds(lines, role)
  {
    hide Fields, HasPrefix, FieldAfter;
    if lines != [] { RelevantKinds(lines[1..], role); }
  }

  // Root kind, leaves and readiness depend only on the bag of relevant lines: they are
  // the same for two outputs that differ in order and in any number of ignorable lines.
  lemma OnlyRelevantLinesMatter(a: seq<string>, b: seq<string>)
    requires multiset(Relevant(a)) == multiset(Relevant(b)) && RootsAgree(a)
    ensures SameReading(a, b)
  {
    hide Kinds, Relevant, Sort;
    RelevantKinds(a, Root);
    RelevantKinds(b, Root);
    RelevantKinds(a, Leaf);
    RelevantKinds(b, Leaf);
    PermutedAlike(Relevant(a), Relevant(b));
  }

  // Ready exactly when some first root line says fq, or it says mq and there is a leaf
  // and every leaf line says fq.
  lemma ReadyIff(lines: seq<string>)
    ensures Ready(lines) <==>
            || RootKind(lines) == "fq"
            || (RootKind(lines) == "mq"
                && (exists j :: 0 <= j < |lines| && Plays(lines[j], Leaf))
                && (forall j :: 0 <= j < |lines| && Plays(lines[j], Leaf) ==> Fields(lines[j])[1] == "fq"))
  {
    hide Fields, Kinds;
    forall j | 0 <= j < |lines| && Plays(lines[j], Leaf) ensures KindOf(lines[j]) in Kinds(lines, Leaf) {
      LineHasKind(lines, Leaf, j);
    }
    forall kind | kind in Kinds(lines, Leaf)
      ensures exists j :: 0 <= j < |lines| && Plays(lines[j], Leaf) && KindOf(lines[j]) == kind
    {
      var j := KindHasLine(lines, Leaf, kind);
    }
    assert Kinds(lines, Leaf) != [] ==> Kinds(lines, Leaf)[0] in Kinds(lines, Leaf);
  }

  lemma {:induction false} LineHasKind(lines: seq<string>, role: Role, j: nat)
    requires j < |lines| && Plays(lines[j], role)
    ensures KindOf(lines[j]) in Kinds(lines, role)
  {
    hide Fields, IsLeaf, IsRoot;
    if j > 0 { LineHasKind(lines[1..], role, j - 1); }
  }

  // The field after a word is the one after its first occurrence.
  lemma {:induction false} FieldAfterIff(values: seq<string>, expected: string, found: string)
    ensures FieldAfter(values, expected) == Some(found) <==>
            exists i :: 0 <= i && i + 1 < |values| && values[i] == expected && values[i + 1] == found && expected !in values[..i]
  {
    if |values| >= 2 {
      var rest := values[1..];
      FieldAfterIff(rest, expected, found);
      if values[0] != expected {
        forall i | 0 <= i && i + 1 < |rest| && rest[i] == expected && rest[i + 1] == found && expected !in rest[..i]
          ensures values[i + 1] == expected && values[i + 2] == found && expected !in values[..i + 1]
        {
          assert values[..i + 1] == [values[0]] + rest[..i];
        }
        forall i | 0 <= i && i + 1 < |values| && values[i] == expected && values[i + 1] == found && expected !in values[..i]
          ensures i > 0 && rest[i - 1] == expected && rest[i] == found && expected !in rest[..i - 1]
        {
          assert values[..i] == [values[0]] + rest[..i - 1];
        }
      }
    }
  }

  // Which lines play which role, in terms of their words alone.
  lemma PlaysIff(line: string)
    ensures Plays(line, Root) <==> var f := Fields(line); |f| >= 2 && f[0] == "qdisc" && "root" in f
    ensures Plays(line, Leaf) <==>
            var f := Fields(line);
            && |f| >= 2 && f[0] == "qdisc" && f[1] != "ingress" && f[1] != "clsact"
            && exists parent :: FieldAfter(f, "parent") == Some(parent) && !("ffff:" <= parent)
  {
    hide Fields, FieldAfter;
    var f := Fields(line);
    if FieldAfter(f, "parent").Some? {
      assert HasPrefix(FieldAfter(f, "parent").value, INGRESS_HANDLE) <==> "ffff:" <= FieldAfter(f, "parent").value;
    }
  }

  // The kind at the root is the second word of the first root line, or nothing.
  lemma {:induction false} RootKindIff(lines: seq<string>, kind: string)
    ensures kind != "" ==>
              (RootKind(lines) == kind <==>
                 exists j :: 0 <= j < |lines| && Plays(lines[j], Root) && Fields(lines[j])[1] == kind
                             && forall i | 0 <= i < j :: !Plays(lines[i], Root))
  {
    hide Fields;
    if lines != [] {
      var rest := lines[1..];
      RootKindIff(rest, kind);
      if Plays(lines[0], Root) {
        assert RootKind(lines) == Fields(lines[0])[1];
      } else {
        assert forall j | 0 <= j < |rest| :: rest[j] == lines[j + 1];
        forall j | 0 <= j < |rest| && Plays(rest[j], Root) && Fields(rest[j])[1] == kind
                   && forall i | 0 <= i < j :: !Plays(rest[i], Root)
          ensures Plays(lines[j + 1], Root) && forall i | 0 <= i < j + 1 :: !Plays(lines[i], Root)
        {
          assert forall i | 1 <= i < j + 1 :: lines[i] == rest[i - 1];
        }
        forall j | 0 <= j < |lines| && Plays(lines[j], Root) && Fields(lines[j])[1] == kind
                   && forall i | 0 <= i < j :: !Plays(lines[i], Root)
          ensures j > 0 && Plays(rest[j - 1], Root) && forall i | 0 <= i < j - 1 :: !Plays(rest[i], Root)
        {
          assert forall i | 0 <= i < j - 1 :: rest[i] == lines[i + 1];
        }
      }
    }
  }
}
