/** Python's ordering of `str` values, `sorted`, `str.join` and `str.split`,
    as used by the canonical encoders. */
module Strings {

  /** Python's `a < b` on `str`: lexicographic by code point. */
  predicate Less(a: string, b: string)
  {
    if |a| == 0 then |b| > 0
    else if |b| == 0 then false
    else if a[0] != b[0] then a[0] < b[0]
    else Less(a[1..], b[1..])
  }

  predicate LessEq(a: string, b: string)
  {
    a == b || Less(a, b)
  }

  lemma {:induction false} LessIrreflexive(a: string)
    ensures !Less(a, a)
  {
    if |a| > 0 {
      LessIrreflexive(a[1..]);
    }
  }

  lemma {:induction false} LessTransitive(a: string, b: string, c: string)
    requires Less(a, b) && Less(b, c)
    ensures Less(a, c)
  {
    if |a| > 0 && a[0] == b[0] && b[0] == c[0] {
      LessTransitive(a[1..], b[1..], c[1..]);
    }
  }

  lemma {:induction false} LessTotal(a: string, b: string)
    requires a != b
    ensures Less(a, b) || Less(b, a)
  {
    if |a| > 0 && |b| > 0 && a[0] == b[0] {
      assert a == [a[0]] + a[1..] && b == [b[0]] + b[1..];
      LessTotal(a[1..], b[1..]);
    }
  }

  lemma LessAsymmetric(a: string, b: string)
    requires Less(a, b)
    ensures !Less(b, a)
  {
    if Less(b, a) {
      LessTransitive(a, b, a);
      LessIrreflexive(a);
    }
  }

  lemma LessEqTransitive(a: string, b: string, c: string)
    requires LessEq(a, b) && LessEq(b, c)
    ensures LessEq(a, c)
  {
    if a != b && b != c {
      LessTransitive(a, b, c);
    }
  }

  // ---------------------------------------------------------------------
  // Sequences of strings

  ghost predicate NonDecreasing(s: seq<string>)
  {
    forall i, j :: 0 <= i < j < |s| ==> LessEq(s[i], s[j])
  }

  ghost predicate Increasing(s: seq<string>)
  {
    forall i, j :: 0 <= i < j < |s| ==> Less(s[i], s[j])
  }

  ghost predicate Distinct<T>(s: seq<T>)
  {
    forall i, j :: 0 <= i < j < |s| ==> s[i] != s[j]
  }

  function Elems<T>(s: seq<T>): set<T>
  {
    set x | x in s
  }

  /** Inserts `x` before the first element that is not smaller than it. */
  function Insert(x: string, s: seq<string>): (r: seq<string>)
    ensures multiset(r) == multiset(s) + multiset{x}
  {
    if |s| == 0 then [x]
    else if Less(s[0], x) then
      assert s == [s[0]] + s[1..];
      [s[0]] + Insert(x, s[1..])
    else [x] + s
  }

  lemma {:induction false} InsertKeepsOrder(x: string, s: seq<string>)
    requires NonDecreasing(s)
    ensures NonDecreasing(Insert(x, s))
  {
    var r := Insert(x, s);
    if |s| == 0 {
    } else if Less(s[0], x) {
      var t := Insert(x, s[1..]);
      InsertKeepsOrder(x, s[1..]);
      assert r == [s[0]] + t;
      forall j | 0 <= j < |t| ensures LessEq(s[0], t[j]) {
        var y := t[j];
        assert y in multiset(t);
        if y != x {
          assert y in multiset(s[1..]);
          var k :| 0 <= k < |s[1..]| && s[1..][k] == y;
          assert s[k + 1] == y;
        }
      }
    } else {
      assert r == [x] + s;
      if x != s[0] {
        LessTotal(x, s[0]);
      }
      forall j | 0 <= j < |s| ensures LessEq(x, s[j]) {
        LessEqTransitive(x, s[0], s[j]);
      }
    }
  }

  /** Python's `sorted` on a list of strings. */
  function Sorted(s: seq<string>): (r: seq<string>)
    ensures multiset(r) == multiset(s)
    ensures NonDecreasing(r)
  {
    if |s| == 0 then []
    else
      var t := Sorted(s[1..]);
      InsertKeepsOrder(s[0], t);
      assert s == [s[0]] + s[1..];
      Insert(s[0], t)
  }

  lemma HeadIsLeast(a: seq<string>, y: string)
    requires NonDecreasing(a) && y in multiset(a)
    ensures LessEq(a[0], y)
  {
    var j :| 0 <= j < |a| && a[j] == y;
  }

  lemma TailMultiset<T>(a: seq<T>)
    requires |a| > 0
    ensures multiset(a[1..]) == multiset(a) - multiset{a[0]}
  {
    assert a == [a[0]] + a[1..];
  }

  /** Two ordered sequences holding the same strings are the same sequence:
      the sorted order does not depend on the order of the input. */
  lemma {:induction false} OrderedUnique(a: seq<string>, b: seq<string>)
    requires NonDecreasing(a) && NonDecreasing(b)
    requires multiset(a) == multiset(b)
    ensures a == b
  {
    if |a| == 0 {
      assert |multiset(b)| == 0;
    } else {
      assert |b| > 0 by { assert |multiset(b)| == |a|; }
      HeadIsLeast(a, b[0]);
      HeadIsLeast(b, a[0]);
      if a[0] != b[0] {
        LessAsymmetric(a[0], b[0]);
      }
      TailMultiset(a);
      TailMultiset(b);
      OrderedUnique(a[1..], b[1..]);
      assert a == [a[0]] + a[1..] && b == [b[0]] + b[1..];
    }
  }

  lemma {:induction false} DistinctMultiplicity<T>(s: seq<T>, x: T)
    requires Distinct(s)
    ensures multiset(s)[x] == if x in s then 1 else 0
  {
    if |s| > 0 {
      assert s == [s[0]] + s[1..];
      DistinctMultiplicity(s[1..], x);
    }
  }

  /** Two duplicate-free sequences with the same elements hold the same multiset. */
  lemma SameElemsSameMultiset<T>(a: seq<T>, b: seq<T>)
    requires Distinct(a) && Distinct(b) && Elems(a) == Elems(b)
    ensures multiset(a) == multiset(b)
  {
    forall x ensures multiset(a)[x] == multiset(b)[x] {
      DistinctMultiplicity(a, x);
      DistinctMultiplicity(b, x);
      assert x in a <==> x in Elems(a);
      assert x in b <==> x in Elems(b);
    }
  }

  /** Some enumeration of a finite set, in no particular order. */
  ghost function Enumerate<T>(s: set<T>): (r: seq<T>)
    ensures Distinct(r) && Elems(r) == s
    decreases s
  {
    if s == {} then []
    else
      var x :| x in s;
      var t := Enumerate(s - {x});
      assert Elems([x] + t) == {x} + Elems(t);
      [x] + t
  }

  /** The keys of a set in ascending order: what `sorted(d.keys())` yields
      for any dict `d` with this key set. */
  ghost function SortedKeysOf(s: set<string>): seq<string>
  {
    Sorted(Enumerate(s))
  }

  lemma SortedKeysOfAgrees(keys: seq<string>, s: set<string>)
    requires Distinct(keys) && Elems(keys) == s
    ensures Sorted(keys) == SortedKeysOf(s)
  {
    SameElemsSameMultiset(keys, Enumerate(s));
    OrderedUnique(Sorted(keys), SortedKeysOf(s));
  }

  lemma RepeatedMultiplicity<T>(s: seq<T>, i: int, j: int)
    requires 0 <= i < j < |s| && s[i] == s[j]
    ensures multiset(s)[s[i]] >= 2
  {
    assert s == s[..j] + s[j..];
    assert s[i] in s[..j] && s[j] in s[j..];
    assert multiset(s) == multiset(s[..j]) + multiset(s[j..]);
  }

  /** A sequence with the multiset of a duplicate-free one has no duplicates. */
  lemma DistinctByMultiset<T>(e: seq<T>, r: seq<T>)
    requires Distinct(e) && multiset(r) == multiset(e)
    ensures Distinct(r)
  {
    forall i, j | 0 <= i < j < |r| ensures r[i] != r[j] {
      if r[i] == r[j] {
        RepeatedMultiplicity(r, i, j);
        DistinctMultiplicity(e, r[i]);
      }
    }
  }

  /** The keys of `s` in ascending order: it holds each key once, and nothing else. */
  lemma SortedKeysOfProperties(s: set<string>)
    ensures Increasing(SortedKeysOf(s))
    ensures Elems(SortedKeysOf(s)) == s
    ensures |SortedKeysOf(s)| == |s|
  {
    var e := Enumerate(s);
    var r := SortedKeysOf(s);
    forall x ensures x in r <==> x in s {
      assert x in r <==> x in multiset(r);
      assert x in e <==> x in multiset(e);
      assert x in e <==> x in Elems(e);
    }
    DistinctByMultiset(e, r);
    DistinctCard(r);
  }

  /** A sequence that is already ascending is the sorted order of its keys. */
  lemma SortedKeysOfIncreasing(ks: seq<string>)
    requires Increasing(ks)
    ensures SortedKeysOf(Elems(ks)) == ks
  {
    var s := Elems(ks);
    forall i, j | 0 <= i < j < |ks| ensures ks[i] != ks[j] {
      LessIrreflexive(ks[i]);
    }
    SameElemsSameMultiset(ks, Enumerate(s));
    OrderedUnique(ks, SortedKeysOf(s));
  }

  /** Strings that agree before index `n` and differ there are ordered by
      their characters at `n`. */
  lemma {:induction false} LessAt(a: string, b: string, n: nat)
    requires n < |a| && n < |b| && a[..n] == b[..n] && a[n] < b[n]
    ensures Less(a, b)
  {
    if n > 0 {
      assert a[0] == a[..n][0] == b[..n][0] == b[0];
      assert a[1..][..n - 1] == a[..n][1..] == b[..n][1..] == b[1..][..n - 1];
      LessAt(a[1..], b[1..], n - 1);
    }
  }

  lemma {:induction false} IncreasingFromAdjacent(ks: seq<string>)
    requires forall i :: 0 <= i < |ks| - 1 ==> Less(ks[i], ks[i + 1])
    ensures Increasing(ks)
  {
    if |ks| > 1 {
      IncreasingFromAdjacent(ks[1..]);
      assert Increasing(ks[1..]);
      forall j | 1 <= j < |ks| ensures Less(ks[0], ks[j]) {
        if j > 1 {
          assert Less(ks[1], ks[j]) by { assert ks[1..][0] == ks[1] && ks[1..][j - 1] == ks[j]; }
          LessTransitive(ks[0], ks[1], ks[j]);
        }
      }
      forall i, j | 0 <= i < j < |ks| ensures Less(ks[i], ks[j]) {
        if i > 0 {
          assert ks[1..][i - 1] == ks[i] && ks[1..][j - 1] == ks[j];
        }
      }
    }
  }

  lemma {:induction false} DistinctCard<T>(s: seq<T>)
    requires Distinct(s)
    ensures |Elems(s)| == |s|
  {
    if |s| > 0 {
      assert Elems(s) == {s[0]} + Elems(s[1..]);
      assert s[0] !in Elems(s[1..]);
      DistinctCard(s[1..]);
    }
  }

  // ---------------------------------------------------------------------
  // Joining and splitting

  /** Python's `sep.join(parts)`. */
  function Join(parts: seq<string>, sep: string): string
  {
    if |parts| == 0 then ""
    else if |parts| == 1 then parts[0]
    else parts[0] + sep + Join(parts[1..], sep)
  }

  /** Python's `s.split(c)` for a one-character separator. */
  function Split(s: string, c: char): (r: seq<string>)
    ensures |r| >= 1
  {
    if |s| == 0 then [""]
    else if s[0] == c then [""] + Split(s[1..], c)
    else
      var t := Split(s[1..], c);
      [[s[0]] + t[0]] + t[1..]
  }

  lemma {:induction false} SplitPlain(p: string, c: char)
    requires c !in p
    ensures Split(p, c) == [p]
  {
    if |p| > 0 {
      SplitPlain(p[1..], c);
      assert [p[0]] + p[1..] == p;
    }
  }

  lemma {:induction false} SplitFront(p: string, c: char, rest: string)
    requires c !in p
    ensures Split(p + [c] + rest, c) == [p] + Split(rest, c)
  {
    if |p| == 0 {
      assert p + [c] + rest == [c] + rest;
    } else {
      assert (p + [c] + rest)[1..] == p[1..] + [c] + rest;
      SplitFront(p[1..], c, rest);
      assert [p[0]] + p[1..] == p;
    }
  }

  /** Splitting a join on its separator gives the parts back, when no part
      holds the separator. */
  lemma {:induction false} SplitJoin(parts: seq<string>, c: char)
    requires |parts| > 0
    requires forall i :: 0 <= i < |parts| ==> c !in parts[i]
    ensures Split(Join(parts, [c]), c) == parts
  {
    if |parts| == 1 {
      SplitPlain(parts[0], c);
    } else {
      SplitJoin(parts[1..], c);
      SplitFront(parts[0], c, Join(parts[1..], [c]));
      assert [parts[0]] + parts[1..] == parts;
    }
  }

  /** Appending one part to a join adds the separator and the part. */
  lemma {:induction false} JoinSnoc(parts: seq<string>, p: string, sep: string)
    requires |parts| > 0
    ensures Join(parts + [p], sep) == Join(parts, sep) + sep + p
  {
    if |parts| == 1 {
      assert (parts + [p])[1..] == [p];
    } else {
      assert (parts + [p])[1..] == parts[1..] + [p];
      JoinSnoc(parts[1..], p, sep);
    }
  }

  // ---------------------------------------------------------------------
  // Splitting a pair at its first '='

  /** Python's `s.partition(c)`: the text before the first `c` and the text
      after it; `(s, "")` when `c` does not occur. */
  function Partition(s: string, c: char): (string, string)
  {
    if |s| == 0 then ("", "")
    else if s[0] == c then ("", s[1..])
    else
      var (k, v) := Partition(s[1..], c);
      ([s[0]] + k, v)
  }

  lemma {:induction false} PartitionPair(k: string, c: char, v: string)
    requires c !in k
    ensures Partition(k + [c] + v, c) == (k, v)
  {
    if |k| == 0 {
      assert k + [c] + v == [c] + v;
    } else {
      assert (k + [c] + v)[1..] == k[1..] + [c] + v;
      PartitionPair(k[1..], c, v);
      assert [k[0]] + k[1..] == k;
    }
  }
}
