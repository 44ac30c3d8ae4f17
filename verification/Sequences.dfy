/** Facts about sequences that several components need. */
module Sequences {

  ghost predicate Distinct<T(!new)>(s: seq<T>) {
    forall i, j :: 0 <= i < j < |s| ==> s[i] != s[j]
  }

  /** `s` with every occurrence of `x` removed. */
  function Without<T(==,!new)>(s: seq<T>, x: T): (r: seq<T>)
    ensures |r| <= |s|
    ensures forall y :: y in r <==> y in s && y != x
  {
    if s == [] then [] else (if s[0] == x then [] else [s[0]]) + Without(s[1..], x)
  }

  lemma {:induction false} WithoutDistinct<T(!new)>(s: seq<T>, x: T)
    requires Distinct(s)
    ensures Distinct(Without(s, x))
    ensures |Without(s, x)| == if x in s then |s| - 1 else |s|
  {
    if s == [] {
    } else {
      assert s[0] !in s[1..];
      WithoutDistinct(s[1..], x);
      var rest := Without(s[1..], x);
      assert s[0] !in rest;
      if s[0] != x { Prepend(s[0], rest); }
    }
  }

  lemma {:induction false} WithoutAbsent<T(!new)>(s: seq<T>, x: T)
    requires x !in s
    ensures Without(s, x) == s
  {
    if s != [] { WithoutAbsent(s[1..], x); }
  }

  /** The last element of a duplicate-free sequence occurs nowhere else. */
  lemma {:induction false} DropLast<T(!new)>(s: seq<T>)
    requires s != [] && Distinct(s)
    ensures Distinct(s[..|s| - 1])
    ensures forall y :: y in s[..|s| - 1] <==> y in s && y != s[|s| - 1]
  {
  }

  lemma {:induction false} Prepend<T(!new)>(x: T, s: seq<T>)
    requires Distinct(s) && x !in s
    ensures Distinct([x] + s)
  {
  }

  lemma {:induction false} OccursTwice<T(!new)>(s: seq<T>, i: nat, j: nat)
    requires i < j < |s|
    ensures s[i] == s[j] ==> multiset(s)[s[i]] >= 2
  {
    assert s == s[..j] + s[j..];
    assert s[i] in s[..j] && s[j] in s[j..];
  }

  lemma {:induction false} OccursOnce<T(!new)>(s: seq<T>, x: T)
    requires Distinct(s)
    ensures multiset(s)[x] <= 1
  {
    if s != [] {
      assert s == [s[0]] + s[1..];
      assert s[0] !in s[1..];
      OccursOnce(s[1..], x);
    }
  }

  /** A part of a duplicate-free sequence, counted with multiplicity, has no duplicates either. */
  lemma {:induction false} DistinctPart<T(!new)>(a: seq<T>, b: seq<T>)
    requires multiset(a) <= multiset(b) && Distinct(b)
    ensures Distinct(a)
    ensures forall x :: x in a ==> x in b
  {
    forall x | x in a ensures x in b { assert multiset(a)[x] > 0; }
    forall i, j | 0 <= i < j < |a| ensures a[i] != a[j] {
      OccursTwice(a, i, j);
      OccursOnce(b, a[i]);
    }
  }

  lemma {:induction false} SubsetSize<T(!new)>(a: set<T>, b: set<T>)
    requires a <= b
    ensures |a| <= |b|
    ensures |a| == |b| ==> a == b
  {
    assert b == a + (b - a);
    assert |b| == |a| + |b - a|;
  }

  /** The members of `bits` below `n`, in increasing order (a std::set walk). */
  function Ascending(bits: set<nat>, n: nat): (r: seq<nat>)
    ensures forall b :: b in r <==> b in bits && b < n
    ensures forall i, j :: 0 <= i < j < |r| ==> r[i] < r[j]
  {
    if n == 0 then []
    else
      var below := Ascending(bits, n - 1);
      assert forall i :: 0 <= i < |below| ==> below[i] in below;
      below + (if n - 1 in bits then [n - 1] else [])
  }
}
