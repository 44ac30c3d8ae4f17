/**
  Staging files with a master and its workers: items are dealt out in turn, travel as one string
  per worker, and every job is reported back.
 */
module Stager {
  import opened Arithmetic

  datatype Load = Idle | Items(text: string)

  const SEPARATOR := ';'

  // ---------------------------------------------------------------------
  // Dealing out and packing
  // ---------------------------------------------------------------------

  /** The worker that gets item k; workers are numbered from 1 to p - 1. */
  function Worker(k: nat, p: nat): nat
    requires p >= 2
  {
    1 + k % (p - 1)
  }

  /** The items of one worker, in order. */
  function Share(items: seq<string>, p: nat, worker: nat): seq<string>
    requires p >= 2
  {
    if items == [] then []
    else
      var n := |items| - 1;
      Share(items[..n], p, worker) + (if Worker(n, p) == worker then [items[n]] else [])
  }

  function Join(parts: seq<string>): Load {
    if parts == [] then Idle
    else
      var n := |parts| - 1;
      match Join(parts[..n])
      case Idle => Items(parts[n])
      case Items(text) => Items(text + [SEPARATOR] + parts[n])
  }

  /** Python's split at the separator. */
  function Split(s: string): (parts: seq<string>)
    ensures parts != []
  {
    if s == [] then [[]]
    else
      var n := |s| - 1;
      var front := Split(s[..n]);
      if s[n] == SEPARATOR then front + [[]]
      else front[..|front| - 1] + [front[|front| - 1] + [s[n]]]
  }

  function Separators(s: string): nat {
    if s == [] then 0 else Separators(s[..|s| - 1]) + (if s[|s| - 1] == SEPARATOR then 1 else 0)
  }

  function SeparatorsIn(items: seq<string>): nat {
    if items == [] then 0 else SeparatorsIn(items[..|items| - 1]) + Separators(items[|items| - 1])
  }

  /** No worker has a load yet. */
  function NoLoads(p: nat): (m: map<nat, Load>)
    ensures forall w: nat :: w in m <==> 1 <= w < p
    ensures forall w: nat :: w in m ==> m[w] == Idle
  {
    if p <= 1 then map[] else NoLoads(p - 1)[p - 1 := Idle]
  }

  /** Hands out the items in turn and packs each worker's items into one string. */
  method LoadDistributor(items: seq<string>, p: nat) returns (transfer: map<nat, Load>)
    requires p >= 2
    ensures forall w: nat :: w in transfer <==> 1 <= w < p
    ensures forall w: nat :: 1 <= w < p ==> transfer[w] == Join(Share(items, p, w))
  {
    transfer := NoLoads(p);
    var counter := 1;
    var k := 0;
    while k < |items|
      invariant k <= |items| && counter == Worker(k, p) && 1 <= counter < p
      invariant forall w: nat :: w in transfer <==> 1 <= w < p
      invariant forall w: nat :: 1 <= w < p ==> transfer[w] == Join(Share(items[..k], p, w))
    {
      forall w: nat | 1 <= w < p
        ensures Join(Share(items[..k + 1], p, w)) == (if w != counter then transfer[w]
          else if transfer[w] == Idle then Items(items[k]) else Items(transfer[w].text + [SEPARATOR] + items[k]))
      {
        ShareNext(items, p, w, k);
        JoinNext(Share(items[..k], p, w), items[k]);
      }
      transfer := transfer[counter :=
        if transfer[counter] == Idle then Items(items[k]) else Items(transfer[counter].text + [SEPARATOR] + items[k])];
      NextWorker(k, p);
      counter := counter + 1;
      if counter == p { counter := 1; }
      k := k + 1;
    }
    assert items[..k] == items;
  }

  lemma {:induction false} ShareNext(items: seq<string>, p: nat, w: nat, k: nat)
    requires p >= 2 && k < |items|
    ensures Share(items[..k + 1], p, w) == Share(items[..k], p, w) + (if Worker(k, p) == w then [items[k]] else [])
  {
    assert items[..k + 1][..k] == items[..k];
  }

  lemma {:induction false} JoinNext(parts: seq<string>, x: string)
    ensures Join(parts + [x]) == (if Join(parts) == Idle then Items(x) else Items(Join(parts).text + [SEPARATOR] + x))
    ensures parts + [] == parts
  {
    assert (parts + [x])[..|parts|] == parts;
  }

  lemma {:induction false} NextWorker(k: nat, p: nat)
    requires p >= 2
    ensures Worker(k + 1, p) == if Worker(k, p) + 1 == p then 1 else Worker(k, p) + 1
  {
    var n := p - 1;
    var q, r := k / n, k % n;
    assert k == n * q + r;
    if r + 1 == n {
      DivMod(n, q + 1, 0);
      assert k + 1 == n * (q + 1) + 0;
    } else {
      DivMod(n, q, r + 1);
    }
  }

  // ---------------------------------------------------------------------
  // Unpacking undoes packing
  // ---------------------------------------------------------------------

  lemma {:induction false} SplitPlain(x: string)
    requires Separators(x) == 0
    ensures Split(x) == [x]
  {
    if x != [] {
      SplitPlain(x[..|x| - 1]);
      assert x[..|x| - 1] + [x[|x| - 1]] == x;
    }
  }

  function Extend(parts: seq<string>, c: char): (r: seq<string>)
    requires parts != []
  {
    if c == SEPARATOR then parts + [[]] else parts[..|parts| - 1] + [parts[|parts| - 1] + [c]]
  }

  lemma {:induction false} SplitNext(s: string, c: char)
    ensures Split(s + [c]) == Extend(Split(s), c)
  {
    assert (s + [c])[..|s|] == s;
  }

  /** Splitting the right part of a joined text. */
  lemma {:induction false} SplitAppend(a: string, x: string)
    ensures Split(a + [SEPARATOR] + x) == Split(a) + Split(x)
  {
    if x == [] {
      SplitNext(a, SEPARATOR);
      assert a + [SEPARATOR] + x == a + [SEPARATOR];
    } else {
      var front, c := x[..|x| - 1], x[|x| - 1];
      SplitAppend(a, front);
      assert x == front + [c];
      assert a + [SEPARATOR] + x == a + [SEPARATOR] + front + [c];
      SplitNext(a + [SEPARATOR] + front, c);
      SplitNext(front, c);
      GrowLast(Split(a), Split(front), c);
    }
  }

  lemma {:induction false} GrowLast(front: seq<string>, tail: seq<string>, c: char)
    requires tail != []
    ensures Extend(front + tail, c) == front + Extend(tail, c)
  {
    var all := front + tail;
    assert all[..|all| - 1] == front + tail[..|tail| - 1];
  }

  lemma {:induction false} SplitSize(s: string)
    ensures |Split(s)| == 1 + Separators(s)
  {
    if s != [] { SplitSize(s[..|s| - 1]); }
  }

  /** The number of jobs a worker makes of its load. */
  function Jobs(load: Load): seq<string> {
    match load
    case Idle => []
    case Items(text) => Split(text)
  }

  /** One more item makes one more job, and one more for each separator in its name. */
  lemma {:induction false} JobsNext(load: Load, x: string)
    ensures
      var more := if load == Idle then Items(x) else Items(load.text + [SEPARATOR] + x);
      && |Jobs(more)| == |Jobs(load)| + 1 + Separators(x)
      && (Separators(x) == 0 ==> Jobs(more) == Jobs(load) + [x])
  {
    SplitSize(x);
    if Separators(x) == 0 { SplitPlain(x); }
    if load != Idle { SplitAppend(load.text, x); }
  }

  lemma {:induction false} SeparatorsNext(parts: seq<string>, x: string)
    ensures SeparatorsIn(parts + [x]) == SeparatorsIn(parts) + Separators(x)
  {
    assert (parts + [x])[..|parts|] == parts;
  }

  /** A worker's jobs are its items, if no name contains the separator; in any case there is one more job per
      separator. */
  ghost predicate Unpacks(parts: seq<string>) {
    && (Join(parts) == Idle <==> parts == [])
    && |Jobs(Join(parts))| == |parts| + SeparatorsIn(parts)
    && (SeparatorsIn(parts) == 0 ==> Jobs(Join(parts)) == parts)
  }

  lemma {:induction false} UnpackNext(parts: seq<string>, x: string)
    requires Unpacks(parts)
    ensures Unpacks(parts + [x])
  {
    hide Jobs, Join, SeparatorsIn, Separators;
    JobsNext(Join(parts), x);
    JoinNext(parts, x);
    SeparatorsNext(parts, x);
  }

  lemma {:induction false} JobsOfShare(parts: seq<string>)
    ensures Unpacks(parts)
  {
    if parts != [] {
      hide Unpacks;
      JobsOfShare(parts[..|parts| - 1]);
      UnpackNext(parts[..|parts| - 1], parts[|parts| - 1]);
      assert parts[..|parts| - 1] + [parts[|parts| - 1]] == parts;
    }
  }

  // ---------------------------------------------------------------------
  // Fair shares
  // ---------------------------------------------------------------------

  /** How many of the first k items worker w gets. */
  function Quota(k: nat, n: nat, w: nat): nat
    requires n >= 1
  {
    k / n + (if w - 1 < k % n then 1 else 0)
  }

  lemma {:induction false} QuotaNext(k: nat, n: nat, w: nat)
    requires n >= 1 && 1 <= w <= n
    ensures Quota(k + 1, n, w) == Quota(k, n, w) + (if 1 + k % n == w then 1 else 0)
    ensures Quota(0, n, w) == 0
  {
    var q, r := k / n, k % n;
    assert k == n * q + r;
    DivMod(n, 0, 0);
    if r + 1 == n {
      DivMod(n, q + 1, 0);
      assert k + 1 == n * (q + 1) + 0;
    } else {
      DivMod(n, q, r + 1);
    }
  }

  lemma {:induction false} ShareSize(items: seq<string>, p: nat, w: nat)
    requires p >= 2 && 1 <= w < p
    ensures |Share(items, p, w)| == Quota(|items|, p - 1, w)
  {
    if items == [] {
      QuotaNext(0, p - 1, w);
    } else {
      ShareSize(items[..|items| - 1], p, w);
      QuotaNext(|items| - 1, p - 1, w);
      hide Quota;
    }
  }

  /** Round robin among p - 1 workers: the place of worker w's j-th item. */
  function PlaceOf(w: nat, j: nat, p: nat): nat
    requires p >= 2 && w >= 1
  {
    w - 1 + j * (p - 1)
  }

  lemma {:induction false} NextPlaceOf(items: seq<string>, p: nat, w: nat)
    requires p >= 2 && 1 <= w < p && Worker(|items|, p) == w
    ensures PlaceOf(w, |Share(items, p, w)|, p) == |items|
  {
    ShareSize(items, p, w);
  }

  lemma {:induction false} ShareItems(items: seq<string>, p: nat, w: nat, j: nat)
    requires p >= 2 && 1 <= w < p && j < |Share(items, p, w)|
    ensures PlaceOf(w, j, p) < |items| && Share(items, p, w)[j] == items[PlaceOf(w, j, p)]
  {
    hide PlaceOf, Worker;
    var n := |items| - 1;
    if j < |Share(items[..n], p, w)| {
      ShareItems(items[..n], p, w, j);
    } else {
      NextPlaceOf(items[..n], p, w);
    }
  }

  /** The items of workers 1 to w. */
  function UpTo(items: seq<string>, p: nat, w: nat): multiset<string>
    requires p >= 2
  {
    if w == 0 then multiset{} else UpTo(items, p, w - 1) + multiset(Share(items, p, w))
  }

  lemma {:induction false} UpToNext(items: seq<string>, p: nat, w: nat)
    requires p >= 2 && items != []
    ensures
      var n := |items| - 1;
      UpTo(items, p, w) == UpTo(items[..n], p, w) + (if Worker(n, p) <= w then multiset{items[n]} else multiset{})
  {
    hide Share;
    if w > 0 {
      UpToNext(items, p, w - 1);
      ShareNext(items, p, w, |items| - 1);
      assert items[..|items|] == items;
    }
  }

  lemma {:induction false} LastItem(items: seq<string>)
    requires items != []
    ensures multiset(items) == multiset(items[..|items| - 1]) + multiset{items[|items| - 1]}
  {
    assert items == items[..|items| - 1] + [items[|items| - 1]];
  }

  /** The workers' shares make up the items. */
  lemma {:induction false} SharesPartition(items: seq<string>, p: nat)
    requires p >= 2
    ensures UpTo(items, p, p - 1) == multiset(items)
  {
    if items == [] {
      NoShares(p, p - 1);
    } else {
      var n := |items| - 1;
      hide UpTo;
      SharesPartition(items[..n], p);
      UpToNext(items, p, p - 1);
      LastItem(items);
    }
  }

  lemma {:induction false} NoShares(p: nat, w: nat)
    requires p >= 2
    ensures UpTo([], p, w) == multiset{}
  {
    if w > 0 { NoShares(p, w - 1); }
  }

  /** What the workers unpack: their shares, a partition of the items into loads that differ by at most one. */
  lemma {:induction false} JobsPartition(items: seq<string>, p: nat, v: nat, w: nat)
    requires p >= 2 && 1 <= v < p && 1 <= w < p && SeparatorsIn(items) == 0
    ensures Jobs(Join(Share(items, p, w))) == Share(items, p, w)
    ensures |Share(items, p, v)| <= |Share(items, p, w)| + 1
    ensures UpTo(items, p, p - 1) == multiset(items)
  {
    NoSeparators(items, p, w);
    JobsOfShare(Share(items, p, w));
    ShareSize(items, p, v);
    ShareSize(items, p, w);
    SharesPartition(items, p);
  }

  lemma {:induction false} NoSeparators(items: seq<string>, p: nat, w: nat)
    requires p >= 2 && SeparatorsIn(items) == 0
    ensures SeparatorsIn(Share(items, p, w)) == 0
  {
    if items != [] {
      var n := |items| - 1;
      NoSeparators(items[..n], p, w);
      var s := Share(items[..n], p, w);
      assert (s + [items[n]])[..|s|] == s;
      assert s + [] == s;
    }
  }
}
