/** Byte-wise string order, as `slices.Sort` uses it, and sorting of finite sets of names. */
module Strings {

  predicate Less(a: string, b: string) {
    if b == [] then false
    else if a == [] then true
    else a[0] < b[0] || (a[0] == b[0] && Less(a[1..], b[1..]))
  }

  /** Up to the first difference the strings agree; there the shorter one has ended, or has the smaller character. */
  lemma {:induction false} LessExact(a: string, b: string)
    ensures Less(a, b) <==> exists k :: FirstApart(a, b, k) && (k == |a| || a[k] < b[k])
  {
    if a != [] && b != [] && a[0] == b[0] {
      LessExact(a[1..], b[1..]);
      if k :| FirstApart(a[1..], b[1..], k) && (k == |a| - 1 || a[1..][k] < b[1..][k]) {
        ApartNext(a, b, k, k + 1);
      }
      if k :| FirstApart(a, b, k) && (k == |a| || a[k] < b[k]) {
        ApartNext(a, b, k - 1, k);
        assert k - 1 == |a| - 1 || a[1..][k - 1] < b[1..][k - 1];
      }
    } else if b != [] {
      assert FirstApart(a, b, 0);
    }
  }

  predicate FirstApart(a: string, b: string, k: int) {
    0 <= k <= |a| && k < |b| && a[..k] == b[..k] && (k < |a| ==> a[k] != b[k])
  }

  lemma ApartNext(a: string, b: string, j: int, k: int)
    requires a != [] && b != [] && a[0] == b[0] && k == j + 1 && j >= 0
    ensures FirstApart(a[1..], b[1..], j) <==> FirstApart(a, b, k)
  {
    if j <= |a| - 1 && j < |b| - 1 {
      assert a[..k] == [a[0]] + a[1..][..j] && b[..k] == [b[0]] + b[1..][..j];
      assert a[1..][..j] == a[..k][1..] && b[1..][..j] == b[..k][1..];
    }
  }

  lemma {:induction false} LessTotal(a: string, b: string)
    ensures a == b || Less(a, b) || Less(b, a)
  {
    if a != [] && b != [] && a[0] == b[0] {
      LessTotal(a[1..], b[1..]);
      assert a == [a[0]] + a[1..] && b == [b[0]] + b[1..];
    }
  }

  lemma {:induction false} LessTransitive(a: string, b: string, c: string)
    requires Less(a, b) && Less(b, c)
    ensures Less(a, c)
  {
    if a != [] && a[0] == b[0] && b[0] == c[0] {
      LessTransitive(a[1..], b[1..], c[1..]);
    }
  }

  lemma {:induction false} LessIrreflexive(a: string)
    ensures !Less(a, a)
  {
    if a != [] {
      LessIrreflexive(a[1..]);
    }
  }

  /** Strictly increasing, so also free of duplicates. */
  ghost predicate Increasing(s: seq<string>) {
    forall i, j :: 0 <= i < j < |s| ==> Less(s[i], s[j])
  }

  method InsertSorted(s: seq<string>, x: string) returns (r: seq<string>)
    requires Increasing(s) && x !in s
    ensures Increasing(r)
    ensures forall y :: y in r <==> y in s || y == x
    ensures |r| == |s| + 1
  {
    var k := 0;
    while k < |s| && Less(s[k], x)
      invariant 0 <= k <= |s|
      invariant forall i :: 0 <= i < k ==> Less(s[i], x)
    {
      k := k + 1;
    }
    if k < |s| {
      LessTotal(s[k], x);
      forall i | k < i < |s| ensures Less(x, s[i]) {
        LessTransitive(x, s[k], s[i]);
      }
    }
    r := s[..k] + [x] + s[k..];
    assert s == s[..k] + s[k..];
  }

  /** The members of a set in increasing order. */
  method SortSet(names: set<string>) returns (r: seq<string>)
    ensures Increasing(r)
    ensures forall x :: x in r <==> x in names
    ensures |r| == |names|
  {
    r := [];
    var rest := names;
    while rest != {}
      invariant rest <= names && Increasing(r)
      invariant forall x :: x in r <==> x in names && x !in rest
      invariant |r| + |rest| == |names|
    {
      var x :| x in rest;
      rest := rest - {x};
      r := InsertSorted(r, x);
    }
  }

  /** Sorting leaves no freedom: two increasing lists of the same names are equal. */
  lemma {:induction false} IncreasingUnique(s: seq<string>, t: seq<string>)
    requires Increasing(s) && Increasing(t)
    requires forall x :: x in s <==> x in t
    ensures s == t
  {
    if t != [] {
      assert t[0] in t;
    }
    if s != [] {
      assert s[0] in t;
      assert t[0] in s;
      LessIrreflexive(s[0]);
      var i :| 0 <= i < |t| && t[i] == s[0];
      var j :| 0 <= j < |s| && s[j] == t[0];
      if s[0] != t[0] {
        LessTransitive(s[0], t[0], s[0]);
      }
      IncreasingTail(s, t);
      IncreasingTail(t, s);
      IncreasingUnique(s[1..], t[1..]);
      assert s == [s[0]] + s[1..] && t == [t[0]] + t[1..];
    }
  }

  lemma IncreasingTail(s: seq<string>, t: seq<string>)
    requires Increasing(s) && Increasing(t) && s != [] && t != [] && s[0] == t[0]
    requires forall x :: x in s ==> x in t
    ensures forall x :: x in s[1..] ==> x in t[1..]
  {
    forall x | x in s[1..] ensures x in t[1..] {
      var i :| 1 <= i < |s| && s[i] == x;
      LessIrreflexive(x);
      assert x in s;
      var j :| 0 <= j < |t| && t[j] == x;
      assert j != 0;
      assert t[1..][j - 1] == x;
    }
  }
}
