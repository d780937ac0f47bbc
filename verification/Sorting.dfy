/**
 sort.Strings and sortedKeys: byte-wise order, and the fact that makes every use of
 it deterministic, namely that a sorted list is determined by the bag of its elements.
 */
module Sorting {
  // a precedes or equals b, byte by byte.
  predicate Leq(a: string, b: string) {
    a == "" || (b != "" && (a[0] < b[0] || (a[0] == b[0] && Leq(a[1..], b[1..]))))
  }

  lemma {:induction false} LeqTotal(a: string, b: string)
    ensures Leq(a, b) || Leq(b, a)
  {
    if a != "" && b != "" { LeqTotal(a[1..], b[1..]); }
  }

  lemma {:induction false} LeqAntisymmetric(a: string, b: string)
    requires Leq(a, b) && Leq(b, a)
    ensures a == b
  {
    if a != "" && b != "" {
      LeqAntisymmetric(a[1..], b[1..]);
      assert a == [a[0]] + a[1..] && b == [b[0]] + b[1..];
    }
  }

  lemma {:induction false} LeqTransitive(a: string, b: string, c: string)
    requires Leq(a, b) && Leq(b, c)
    ensures Leq(a, c)
  {
    if a != "" && a[0] == b[0] == c[0] { LeqTransitive(a[1..], b[1..], c[1..]); }
  }

  predicate Sorted(s: seq<string>) {
    forall i, j | 0 <= i < j < |s| :: Leq(s[i], s[j])
  }

  function Insert(x: string, s: seq<string>): (t: seq<string>)
    ensures multiset(t) == multiset(s) + multiset{x}
    ensures |t| == |s| + 1
  {
    if s == [] || Leq(x, s[0]) then [x] + s
    else
      assert s == [s[0]] + s[1..];
      [s[0]] + Insert(x, s[1..])
  }

  lemma {:induction false} InsertSorted(x: string, s: seq<string>)
    requires Sorted(s)
    ensures Sorted(Insert(x, s))
  {
    var t := Insert(x, s);
    if s == [] {
    } else if Leq(x, s[0]) {
      forall j | 1 <= j < |t| ensures Leq(t[0], t[j]) {
        if j > 1 { LeqTransitive(x, s[0], s[j - 1]); }
      }
    } else {
      LeqTotal(x, s[0]);
      InsertSorted(x, s[1..]);
      forall j | 1 <= j < |t| ensures Leq(s[0], t[j]) {
        var r := Insert(x, s[1..]);
        assert t[j] == r[j - 1] && r[j - 1] in multiset(r);
        assert t[j] == x || t[j] in s[1..];
      }
    }
  }

  function Sort(s: seq<string>): (t: seq<string>)
    ensures multiset(t) == multiset(s)
  {
    if s == [] then []
    else
      assert s == [s[0]] + s[1..];
      Insert(s[0], Sort(s[1..]))
  }

  lemma {:induction false} SortSorts(s: seq<string>)
    ensures Sorted(Sort(s))
  {
    if s != [] {
      SortSorts(s[1..]);
      InsertSorted(s[0], Sort(s[1..]));
    }
  }

  lemma HeadIsLeast(s: seq<string>, x: string)
    requires Sorted(s) && x in s
    ensures Leq(s[0], x)
  {
    var i :| 0 <= i < |s| && s[i] == x;
    if i == 0 { LeqTotal(x, x); }
  }

  lemma BagOfTail(s: seq<string>)
    requires s != []
    ensures multiset(s[1..]) == multiset(s) - multiset{s[0]}
  {
    assert s == [s[0]] + s[1..];
  }

  lemma {:induction false} SortedUnique(a: seq<string>, b: seq<string>)
    requires Sorted(a) && Sorted(b) && multiset(a) == multiset(b)
    ensures a == b
  {
    assert |a| == |multiset(a)| && |b| == |multiset(b)|;
    if a != [] {
      assert a[0] in multiset(b) && b[0] in multiset(a);
      HeadIsLeast(a, b[0]);
      HeadIsLeast(b, a[0]);
      LeqAntisymmetric(a[0], b[0]);
      BagOfTail(a);
      BagOfTail(b);
      SortedUnique(a[1..], b[1..]);
      assert a == [a[0]] + a[1..] && b == [b[0]] + b[1..];
    }
  }

  // Sorting forgets the order of the input.
  lemma SortForgetsOrder(a: seq<string>, b: seq<string>)
    requires multiset(a) == multiset(b)
    ensures Sort(a) == Sort(b)
  {
    SortSorts(a);
    SortSorts(b);
    SortedUnique(Sort(a), Sort(b));
  }

  // ---------- sorted keys of a map ----------

  ghost function Listing(s: set<string>): (ks: seq<string>)
    ensures multiset(ks) == multiset(s)
  {
    if s == {} then []
    else
      var k :| k in s;
      assert s == {k} + (s - {k});
      [k] + Listing(s - {k})
  }

  // The one sorted list that holds each element of s once.
  ghost function SortedKeys(s: set<string>): (ks: seq<string>)
    ensures |ks| == |s|
    ensures forall k :: k in s <==> k in ks
  {
    BagOfKeys(s);
    Sort(Listing(s))
  }

  lemma BagOfKeys(s: set<string>)
    ensures var ks := Sort(Listing(s));
            multiset(ks) == multiset(s) && |ks| == |s| && forall k :: k in s <==> k in ks
  {
    var ks := Sort(Listing(s));
    assert |ks| == |multiset(ks)| == |multiset(s)| == |s|;
    assert forall k :: k in ks <==> k in multiset(ks);
  }

  lemma DistinctInSimpleBag(s: seq<string>, i: nat, j: nat)
    requires i < j < |s| && multiset(s)[s[j]] <= 1
    ensures s[i] != s[j]
  {
    assert s == s[..j] + [s[j]] + s[j + 1..];
    assert s[..j][i] == s[i];
    assert s[i] in s[..j];
  }

  lemma SortedKeysDistinct(s: set<string>)
    ensures Sorted(SortedKeys(s))
    ensures forall i, j | 0 <= i < j < |SortedKeys(s)| :: SortedKeys(s)[i] != SortedKeys(s)[j]
  {
    var ks := SortedKeys(s);
    BagOfKeys(s);
    SortSorts(Listing(s));
    forall i, j | 0 <= i < j < |ks| ensures ks[i] != ks[j] {
      DistinctInSimpleBag(ks, i, j);
    }
  }

  // Go ranges over a map in an arbitrary order; the sorted result does not depend on it.
  method CollectSortedKeys<V>(values: map<string, V>) returns (keys: seq<string>)
    ensures keys == SortedKeys(values.Keys)
  {
    keys := [];
    var rest := values.Keys;
    while rest != {}
      invariant rest <= values.Keys
      invariant multiset(keys) + multiset(rest) == multiset(values.Keys)
      decreases |rest|
    {
      var key :| key in rest;
      keys := keys + [key];
      rest := rest - {key};
    }
    SortForgetsOrder(keys, Listing(values.Keys));
    keys := Sort(keys);
  }
}
