/**
  Grouping ready responses into fused ones.  A group grows from its head by scanning
  the queue in order; a response that does not fit may be skipped as long as the bytes
  skipped so far would still have fitted.
 */
module Fusion {
  import opened Messages

  type Table = map<string, TensorParams>

  /** Every tensor named is in the table. */
  predicate Known(rs: seq<Response>, t: Table) {
    forall i :: 0 <= i < |rs| ==> NameOf(rs[i]) in t
  }

  predicate Gathers(r: Response) {
    r.kind == Perform(Allgather)
  }

  /** Bytes that `r` adds to a group headed by `head`. */
  function Cost(head: Response, r: Response, t: Table): nat
    requires NameOf(r) in t
  {
    if Gathers(head) then GatherBytes(r.sizes, t[NameOf(r)]) else Bytes(t[NameOf(r)])
  }

  predicate Compatible(head: Response, r: Response, t: Table)
    requires NameOf(head) in t && NameOf(r) in t
  {
    head.kind == r.kind && head.devices == r.devices && t[NameOf(head)].dtype == t[NameOf(r)].dtype
  }

  /** The look-ahead: which of `rest` join `head`, and what remains, in order. */
  function Scan(head: Response, total: nat, skipped: nat, rest: seq<Response>, t: Table, limit: int)
    : (s: (seq<Response>, seq<Response>))
    requires NameOf(head) in t && Known(rest, t)
    ensures |s.0| + |s.1| == |rest|
    decreases |rest|
  {
    if rest == [] then ([], [])
    else
      var r, c := rest[0], Cost(head, rest[0], t);
      if Compatible(head, r, t) && total + c <= limit then
        var s := Scan(head, total + c, skipped, rest[1..], t, limit);
        ([r] + s.0, s.1)
      else if total + skipped + c <= limit then
        var s := Scan(head, total, skipped + c, rest[1..], t, limit);
        (s.0, [r] + s.1)
      else ([], rest)
  }

  function GroupOf(rs: seq<Response>, t: Table, limit: int): (s: (seq<Response>, seq<Response>))
    requires rs != [] && Known(rs, t)
    ensures |s.0| + |s.1| == |rs| - 1
  {
    var head, rest := rs[0], rs[1..];
    if Reduces(head.kind) || Gathers(head) then Scan(head, Cost(head, head, t), 0, rest, t, limit) else ([], rest)
  }

  /** The groups, head first. */
  function Groups(rs: seq<Response>, t: Table, limit: int): seq<seq<Response>>
    requires Known(rs, t)
    decreases |rs|
  {
    if rs == [] then []
    else
      var s := GroupOf(rs, t, limit);
      GroupOfParts(rs, t, limit);
      [[rs[0]] + s.0] + Groups(s.1, t, limit)
  }

  /** One response for a whole group: names in order, and for allgather the sizes too. */
  function Merge(group: seq<Response>): Response
    requires group != []
  {
    if |group| == 1 then group[0]
    else
      var before, last := Merge(group[..|group| - 1]), group[|group| - 1];
      if Gathers(group[0]) then before.(names := before.names + [NameOf(last)], sizes := before.sizes + last.sizes)
      else before.(names := before.names + [NameOf(last)])
  }

  predicate NonEmpty(groups: seq<seq<Response>>) {
    forall i :: 0 <= i < |groups| ==> groups[i] != []
  }

  function MergeAll(groups: seq<seq<Response>>): (r: seq<Response>)
    requires NonEmpty(groups)
    ensures |r| == |groups|
    ensures forall i :: 0 <= i < |r| ==> r[i] == Merge(groups[i])
  {
    if groups == [] then [] else [Merge(groups[0])] + MergeAll(groups[1..])
  }

  function Fuse(rs: seq<Response>, t: Table, limit: int): seq<Response>
    requires Known(rs, t)
  {
    GroupsNonEmpty(rs, t, limit);
    MergeAll(Groups(rs, t, limit))
  }

  // ---------------------------------------------------------------------
  // Parts of a queue
  // ---------------------------------------------------------------------

  /** `a` is obtained from `b` by leaving elements out. */
  ghost predicate Subsequence<T(!new)>(a: seq<T>, b: seq<T>) {
    if a == [] then true
    else if b == [] then false
    else (a[0] == b[0] && Subsequence(a[1..], b[1..])) || Subsequence(a, b[1..])
  }

  lemma {:induction false} SubsequenceTransitive<T(!new)>(a: seq<T>, b: seq<T>, c: seq<T>)
    requires Subsequence(a, b) && Subsequence(b, c)
    ensures Subsequence(a, c)
    decreases |c|
  {
    if a == [] || b == [] {
    } else if b[0] == c[0] && Subsequence(b[1..], c[1..]) {
      if a[0] == b[0] && Subsequence(a[1..], b[1..]) {
        SubsequenceTransitive(a[1..], b[1..], c[1..]);
      } else {
        SubsequenceTransitive(a, b[1..], c[1..]);
      }
    } else {
      SubsequenceTransitive(a, b, c[1..]);
    }
  }

  /** `c` deals its elements, in order, to `a` and `b`. */
  ghost predicate Interleaves<T(!new)>(a: seq<T>, b: seq<T>, c: seq<T>) {
    if c == [] then a == [] && b == []
    else
      || (a != [] && a[0] == c[0] && Interleaves(a[1..], b, c[1..]))
      || (b != [] && b[0] == c[0] && Interleaves(a, b[1..], c[1..]))
  }

  lemma {:induction false} InterleavesRight<T(!new)>(c: seq<T>)
    ensures Interleaves([], c, c)
  {
    if c != [] { InterleavesRight(c[1..]); }
  }

  lemma {:induction false} InterleavesCons<T(!new)>(x: T, a: seq<T>, b: seq<T>, c: seq<T>)
    requires Interleaves(a, b, c)
    ensures Interleaves([x] + a, b, [x] + c)
    ensures Interleaves(a, [x] + b, [x] + c)
  {
    assert ([x] + a)[1..] == a && ([x] + b)[1..] == b && ([x] + c)[1..] == c;
  }

  lemma {:induction false} InterleavesMultiset<T(!new)>(a: seq<T>, b: seq<T>, c: seq<T>)
    requires Interleaves(a, b, c)
    ensures multiset(a) + multiset(b) == multiset(c)
    decreases |c|
  {
    if c == [] {
    } else {
      assert c == [c[0]] + c[1..];
      if a != [] && a[0] == c[0] && Interleaves(a[1..], b, c[1..]) {
        InterleavesMultiset(a[1..], b, c[1..]);
        assert a == [a[0]] + a[1..];
      } else {
        InterleavesMultiset(a, b[1..], c[1..]);
        assert b == [b[0]] + b[1..];
      }
    }
  }

  lemma {:induction false} InterleavesSubsequences<T(!new)>(a: seq<T>, b: seq<T>, c: seq<T>)
    requires Interleaves(a, b, c)
    ensures Subsequence(a, c) && Subsequence(b, c)
    decreases |c|
  {
    if c == [] {
    } else if a != [] && a[0] == c[0] && Interleaves(a[1..], b, c[1..]) {
      InterleavesSubsequences(a[1..], b, c[1..]);
    } else {
      InterleavesSubsequences(a, b[1..], c[1..]);
    }
  }

  /** The look-ahead deals the queue out: nothing is lost, repeated or reordered. */
  lemma {:induction false} ScanDeals(head: Response, total: nat, skipped: nat, rest: seq<Response>, t: Table,
      limit: int)
    requires NameOf(head) in t && Known(rest, t)
    ensures
      var s := Scan(head, total, skipped, rest, t, limit);
      Interleaves(s.0, s.1, rest)
    decreases |rest|
  {
    if rest != [] {
      var r, c := rest[0], Cost(head, rest[0], t);
      assert rest == [r] + rest[1..];
      if Compatible(head, r, t) && total + c <= limit {
        ScanDeals(head, total + c, skipped, rest[1..], t, limit);
        var s := Scan(head, total + c, skipped, rest[1..], t, limit);
        InterleavesCons(r, s.0, s.1, rest[1..]);
      } else if total + skipped + c <= limit {
        ScanDeals(head, total, skipped + c, rest[1..], t, limit);
        var s := Scan(head, total, skipped + c, rest[1..], t, limit);
        InterleavesCons(r, s.0, s.1, rest[1..]);
      } else {
        InterleavesRight(rest);
      }
    }
  }

  lemma {:induction false} SubsequenceMember<T(!new)>(a: seq<T>, b: seq<T>)
    requires Subsequence(a, b)
    ensures forall x :: x in a ==> x in b
  {
    if a == [] || b == [] {
    } else if a[0] == b[0] && Subsequence(a[1..], b[1..]) {
      SubsequenceMember(a[1..], b[1..]);
      assert a == [a[0]] + a[1..];
    } else {
      SubsequenceMember(a, b[1..]);
    }
  }

  lemma {:induction false} KnownPart(a: seq<Response>, b: seq<Response>, t: Table)
    requires Subsequence(a, b) && Known(b, t)
    ensures Known(a, t)
  {
    SubsequenceMember(a, b);
    forall i | 0 <= i < |a| ensures NameOf(a[i]) in t {
      assert a[i] in b;
    }
  }

  lemma {:induction false} GroupOfParts(rs: seq<Response>, t: Table, limit: int)
    requires rs != [] && Known(rs, t)
    ensures
      var s := GroupOf(rs, t, limit);
      && multiset([rs[0]] + s.0) + multiset(s.1) == multiset(rs)
      && Subsequence(s.0, rs[1..]) && Subsequence(s.1, rs[1..])
      && Interleaves(s.0, s.1, rs[1..])
      && Known(s.0, t) && Known(s.1, t)
  {
    var head, rest := rs[0], rs[1..];
    var s := GroupOf(rs, t, limit);
    assert rs == [head] + rest;
    if Reduces(head.kind) || Gathers(head) {
      ScanDeals(head, Cost(head, head, t), 0, rest, t, limit);
    } else {
      InterleavesRight(rest);
    }
    InterleavesMultiset(s.0, s.1, rest);
    InterleavesSubsequences(s.0, s.1, rest);
    KnownPart(s.0, rest, t);
    KnownPart(s.1, rest, t);
  }

  lemma {:induction false} GroupsNonEmpty(rs: seq<Response>, t: Table, limit: int)
    requires Known(rs, t)
    ensures NonEmpty(Groups(rs, t, limit))
    decreases |rs|
  {
    if rs != [] {
      GroupOfParts(rs, t, limit);
      GroupsNonEmpty(GroupOf(rs, t, limit).1, t, limit);
    }
  }

  // ---------------------------------------------------------------------
  // Names through fusion
  // ---------------------------------------------------------------------

  /** The names a response list carries, in order. */
  function AllNames(list: seq<Response>): seq<string> {
    if list == [] then [] else AllNames(list[..|list| - 1]) + list[|list| - 1].names
  }

  ghost predicate Singles(rs: seq<Response>) {
    forall i :: 0 <= i < |rs| ==> rs[i].names == [NameOf(rs[i])]
  }

  lemma {:induction false} AllNamesAppend(a: seq<Response>, b: seq<Response>)
    ensures AllNames(a + b) == AllNames(a) + AllNames(b)
  {
    if b == [] {
      assert a + b == a;
    } else {
      assert (a + b)[..|a + b| - 1] == a + b[..|b| - 1];
      AllNamesAppend(a, b[..|b| - 1]);
    }
  }

  lemma {:induction false} SingleNames(rs: seq<Response>)
    requires Singles(rs)
    ensures |AllNames(rs)| == |rs|
    ensures forall i :: 0 <= i < |rs| ==> AllNames(rs)[i] == NameOf(rs[i])
  {
    if rs != [] { SingleNames(rs[..|rs| - 1]); }
  }

  lemma {:induction false} ConsNames(rs: seq<Response>)
    requires rs != []
    ensures AllNames(rs) == rs[0].names + AllNames(rs[1..])
  {
    assert rs == [rs[0]] + rs[1..];
    AllNamesAppend([rs[0]], rs[1..]);
    assert AllNames([rs[0]]) == rs[0].names;
  }

  lemma {:induction false} InterleavesNames(a: seq<Response>, b: seq<Response>, c: seq<Response>)
    requires Interleaves(a, b, c)
    ensures multiset(AllNames(a)) + multiset(AllNames(b)) == multiset(AllNames(c))
    decreases |c|
  {
    if c == [] {
    } else {
      ConsNames(c);
      if a != [] && a[0] == c[0] && Interleaves(a[1..], b, c[1..]) {
        InterleavesNames(a[1..], b, c[1..]);
        ConsNames(a);
      } else {
        InterleavesNames(a, b[1..], c[1..]);
        ConsNames(b);
      }
    }
  }

  lemma {:induction false} MergeNames(group: seq<Response>)
    requires group != [] && Singles(group)
    ensures Merge(group).names == AllNames(group)
  {
    if |group| > 1 {
      MergeNames(group[..|group| - 1]);
    } else {
      SingleNames(group);
    }
  }

  lemma {:induction false} SinglesPart(a: seq<Response>, b: seq<Response>)
    requires Subsequence(a, b) && Singles(b)
    ensures Singles(a)
  {
    SubsequenceMember(a, b);
    forall i | 0 <= i < |a| ensures a[i].names == [NameOf(a[i])] { assert a[i] in b; }
  }

  lemma {:induction false} FuseStep(rs: seq<Response>, t: Table, limit: int)
    requires rs != [] && Known(rs, t)
    ensures
      var s := GroupOf(rs, t, limit);
      && Interleaves(s.0, s.1, rs[1..]) && Subsequence(s.0, rs[1..]) && Subsequence(s.1, rs[1..])
      && Known(s.0, t) && Known(s.1, t)
      && Groups(rs, t, limit) == [[rs[0]] + s.0] + Groups(s.1, t, limit)
      && Fuse(rs, t, limit) == [Merge([rs[0]] + s.0)] + Fuse(s.1, t, limit)
  {
    var s := GroupOf(rs, t, limit);
    GroupOfParts(rs, t, limit);
    GroupsNonEmpty(rs, t, limit);
    GroupsNonEmpty(s.1, t, limit);
    assert Groups(rs, t, limit)[1..] == Groups(s.1, t, limit);
  }

  lemma {:induction false} Regroup(h: seq<string>, a: seq<string>, b: seq<string>, c: seq<string>, d: seq<string>)
    requires multiset(a) + multiset(b) == multiset(c) && multiset(d) == multiset(b)
    ensures multiset(h + a + d) == multiset(h + c)
  {
  }

  lemma {:induction false} FuseNamesStep(rs: seq<Response>, t: Table, limit: int)
    requires rs != [] && Known(rs, t) && Singles(rs)
    ensures
      var s := GroupOf(rs, t, limit);
      && Known(s.1, t) && Singles(s.1)
      && AllNames(Fuse(rs, t, limit)) == rs[0].names + AllNames(s.0) + AllNames(Fuse(s.1, t, limit))
      && multiset(AllNames(s.0)) + multiset(AllNames(s.1)) == multiset(AllNames(rs[1..]))
  {
    FuseStep(rs, t, limit);
    var s := GroupOf(rs, t, limit);
    SinglesPart(s.0, rs[1..]);
    SinglesPart(s.1, rs[1..]);
    var group := [rs[0]] + s.0;
    MergeNames(group);
    ConsNames(group);
    assert group[1..] == s.0;
    ConsNames(Fuse(rs, t, limit));
    InterleavesNames(s.0, s.1, rs[1..]);
  }

  /** Fusion answers exactly the tensors it was given, each as often. */
  lemma {:induction false} FuseNames(rs: seq<Response>, t: Table, limit: int)
    requires Known(rs, t) && Singles(rs)
    ensures multiset(AllNames(Fuse(rs, t, limit))) == multiset(AllNames(rs))
    decreases |rs|
  {
    if rs != [] {
      var s := GroupOf(rs, t, limit);
      FuseNamesStep(rs, t, limit);
      FuseNames(s.1, t, limit);
      ConsNames(rs);
      Regroup(rs[0].names, AllNames(s.0), AllNames(s.1), AllNames(rs[1..]), AllNames(Fuse(s.1, t, limit)));
    }
  }

  // ---------------------------------------------------------------------
  // What a group may contain
  // ---------------------------------------------------------------------

  /** Bytes that the members add to the head's. */
  function Total(head: Response, ms: seq<Response>, t: Table): nat
    requires Known(ms, t)
  {
    if ms == [] then 0 else Cost(head, ms[0], t) + Total(head, ms[1..], t)
  }

  ghost predicate AllCompatible(head: Response, ms: seq<Response>, t: Table) {
    NameOf(head) in t && Known(ms, t) && forall i :: 0 <= i < |ms| ==> Compatible(head, ms[i], t)
  }

  lemma {:induction false} ScanFits(head: Response, total: nat, skipped: nat, rest: seq<Response>, t: Table, limit: int)
    requires NameOf(head) in t && Known(rest, t)
    ensures AllCompatible(head, Scan(head, total, skipped, rest, t, limit).0, t)
    ensures
      var taken := Scan(head, total, skipped, rest, t, limit).0;
      taken == [] || total + Total(head, taken, t) <= limit
    decreases |rest|
  {
    if rest != [] {
      var r, c := rest[0], Cost(head, rest[0], t);
      if Compatible(head, r, t) && total + c <= limit {
        ScanFits(head, total + c, skipped, rest[1..], t, limit);
        var taken := Scan(head, total + c, skipped, rest[1..], t, limit).0;
        assert ([r] + taken)[1..] == taken;
      } else if total + skipped + c <= limit {
        ScanFits(head, total, skipped + c, rest[1..], t, limit);
      }
    }
  }

  /** One type, one device list and one element type per group; two or more tensors stay within the limit. */
  ghost predicate Lawful(group: seq<Response>, t: Table, limit: int) {
    && group != []
    && AllCompatible(group[0], group, t)
    && (|group| > 1 ==> (Reduces(group[0].kind) || Gathers(group[0])) && Total(group[0], group, t) <= limit)
  }

  lemma {:induction false} GroupLawful(rs: seq<Response>, t: Table, limit: int)
    requires rs != [] && Known(rs, t)
    ensures Lawful([rs[0]] + GroupOf(rs, t, limit).0, t, limit)
  {
    var head, taken := rs[0], GroupOf(rs, t, limit).0;
    if Reduces(head.kind) || Gathers(head) {
      ScanFits(head, Cost(head, head, t), 0, rs[1..], t, limit);
    }
    assert ([head] + taken)[1..] == taken;
  }

  lemma {:induction false} GroupsLawful(rs: seq<Response>, t: Table, limit: int)
    requires Known(rs, t)
    ensures forall i :: 0 <= i < |Groups(rs, t, limit)| ==> Lawful(Groups(rs, t, limit)[i], t, limit)
    decreases |rs|
  {
    if rs != [] {
      FuseStep(rs, t, limit);
      GroupLawful(rs, t, limit);
      GroupsLawful(GroupOf(rs, t, limit).1, t, limit);
    }
  }

  function Heads(groups: seq<seq<Response>>): seq<Response>
    requires NonEmpty(groups)
  {
    if groups == [] then [] else [groups[0][0]] + Heads(groups[1..])
  }

  lemma {:induction false} SubsequencePrepend(x: Response, a: seq<Response>, b: seq<Response>)
    requires Subsequence(a, b)
    ensures Subsequence([x] + a, [x] + b)
  {
    assert ([x] + a)[1..] == a && ([x] + b)[1..] == b;
  }

  /** The heads come in the order of the queue, and so do the members of each group. */
  lemma {:induction false} GroupsInOrder(rs: seq<Response>, t: Table, limit: int)
    requires Known(rs, t)
    ensures
      var groups := Groups(rs, t, limit);
      NonEmpty(groups) && Subsequence(Heads(groups), rs) && forall i :: 0 <= i < |groups| ==> Subsequence(groups[i], rs)
    decreases |rs|
  {
    GroupsNonEmpty(rs, t, limit);
    if rs != [] {
      var s, groups := GroupOf(rs, t, limit), Groups(rs, t, limit);
      FuseStep(rs, t, limit);
      GroupsInOrder(s.1, t, limit);
      hide Groups, GroupOf, Subsequence;
      var others := Groups(s.1, t, limit);
      assert rs == [rs[0]] + rs[1..] && groups[1..] == others;
      SubsequenceTransitive(Heads(others), s.1, rs[1..]);
      SubsequencePrepend(rs[0], Heads(others), rs[1..]);
      SubsequencePrepend(rs[0], s.0, rs[1..]);
      forall i | 0 <= i < |groups| ensures Subsequence(groups[i], rs) {
        if i > 0 {
          SubsequenceTransitive(groups[i], s.1, rs[1..]);
          SubsequenceLater(groups[i], rs);
        }
      }
    }
  }

  lemma {:induction false} SubsequenceLater(a: seq<Response>, b: seq<Response>)
    requires b != [] && Subsequence(a, b[1..])
    ensures Subsequence(a, b)
  {
  }

  // ---------------------------------------------------------------------
  // What a fused response carries
  // ---------------------------------------------------------------------

  /** The concatenated sizes cut into consecutive runs of `size`. */
  function Chunks(sizes: seq<nat>, size: nat, count: nat): (r: seq<seq<nat>>)
    ensures |r| == count
    decreases count
  {
    if count == 0 then []
    else if |sizes| < size then [sizes] + Chunks([], size, count - 1)
    else [sizes[..size]] + Chunks(sizes[size..], size, count - 1)
  }

  function SizesOf(group: seq<Response>): seq<seq<nat>> {
    if group == [] then [] else [group[0].sizes] + SizesOf(group[1..])
  }

  function Flat(parts: seq<seq<nat>>): seq<nat> {
    if parts == [] then [] else parts[0] + Flat(parts[1..])
  }

  lemma {:induction false} FlatAppend(parts: seq<seq<nat>>, last: seq<nat>)
    ensures Flat(parts + [last]) == Flat(parts) + last
  {
    if parts == [] {
      assert [last] == [last] + [];
    } else {
      assert (parts + [last])[1..] == parts[1..] + [last];
      FlatAppend(parts[1..], last);
    }
  }

  lemma {:induction false} SizesOfAppend(group: seq<Response>, last: Response)
    ensures SizesOf(group + [last]) == SizesOf(group) + [last.sizes]
  {
    if group == [] {
      assert [last] == [last] + [];
    } else {
      assert (group + [last])[1..] == group[1..] + [last];
      SizesOfAppend(group[1..], last);
    }
  }

  /** A fused allgather carries the sizes of its members one after another. */
  lemma {:induction false} MergeSizes(group: seq<Response>)
    requires group != [] && Gathers(group[0])
    ensures Merge(group).sizes == Flat(SizesOf(group))
  {
    if |group| > 1 {
      var front, last := group[..|group| - 1], group[|group| - 1];
      MergeSizes(front);
      assert group == front + [last];
      SizesOfAppend(front, last);
      FlatAppend(SizesOf(front), last.sizes);
    } else {
      assert group == [group[0]] && group[1..] == [];
    }
  }

  lemma {:induction false} ChunksFlat(parts: seq<seq<nat>>, size: nat)
    requires forall i :: 0 <= i < |parts| ==> |parts[i]| == size
    ensures Chunks(Flat(parts), size, |parts|) == parts
  {
    if parts != [] {
      ChunksFlat(parts[1..], size);
      assert Flat(parts)[..size] == parts[0] && Flat(parts)[size..] == Flat(parts[1..]);
    }
  }

  lemma {:induction false} SizesOfEach(group: seq<Response>)
    ensures |SizesOf(group)| == |group| && forall i :: 0 <= i < |group| ==> SizesOf(group)[i] == group[i].sizes
  {
    if group != [] { SizesOfEach(group[1..]); }
  }

  /** Each allgather finds its own sizes in its place of the fused list. */
  lemma {:induction false} MergeChunks(group: seq<Response>, size: nat)
    requires group != [] && Gathers(group[0]) && forall i :: 0 <= i < |group| ==> |group[i].sizes| == size
    ensures Chunks(Merge(group).sizes, size, |group|) == SizesOf(group)
  {
    MergeSizes(group);
    SizesOfEach(group);
    ChunksFlat(SizesOf(group), size);
  }

  /** Bytes a rank with table `t` puts into the fusion buffer for these tensors. */
  function BufferBytes(kind: ResponseKind, names: seq<string>, chunks: seq<seq<nat>>, t: Table): nat
    requires |chunks| == |names| && forall n :: n in names ==> n in t
  {
    if names == [] then 0
    else (if kind == Perform(Allgather) then GatherBytes(chunks[0], t[names[0]]) else Bytes(t[names[0]]))
         + BufferBytes(kind, names[1..], chunks[1..], t)
  }

  // ---------------------------------------------------------------------
  // Ranks fuse alike
  // ---------------------------------------------------------------------

  /** The tables agree on element type and shape of every tensor named. */
  ghost predicate SameTensors(rs: seq<Response>, t: Table, u: Table) {
    && Known(rs, t) && Known(rs, u)
    && forall i :: 0 <= i < |rs| ==> SameTensor(t[NameOf(rs[i])], u[NameOf(rs[i])])
  }

  predicate SameTensor(p: TensorParams, q: TensorParams) {
    p.dtype == q.dtype && p.shape == q.shape
  }

  lemma {:induction false} ScanSame(head: Response, total: nat, skipped: nat, rest: seq<Response>, t: Table, u: Table,
      limit: int)
    requires NameOf(head) in t && NameOf(head) in u && SameTensor(t[NameOf(head)], u[NameOf(head)])
    requires SameTensors(rest, t, u)
    ensures Scan(head, total, skipped, rest, t, limit) == Scan(head, total, skipped, rest, u, limit)
    decreases |rest|
  {
    if rest != [] {
      var r, c := rest[0], Cost(head, rest[0], t);
      assert c == Cost(head, r, u) && Compatible(head, r, t) == Compatible(head, r, u);
      if Compatible(head, r, t) && total + c <= limit {
        ScanSame(head, total + c, skipped, rest[1..], t, u, limit);
      } else if total + skipped + c <= limit {
        ScanSame(head, total, skipped + c, rest[1..], t, u, limit);
      }
    }
  }

  lemma {:induction false} SameTensorsPart(a: seq<Response>, b: seq<Response>, t: Table, u: Table)
    requires Subsequence(a, b) && SameTensors(b, t, u)
    ensures SameTensors(a, t, u)
  {
    SubsequenceMember(a, b);
    forall i | 0 <= i < |a|
      ensures NameOf(a[i]) in t && NameOf(a[i]) in u && SameTensor(t[NameOf(a[i])], u[NameOf(a[i])])
    {
      assert a[i] in b;
    }
  }

  /** Fusion looks only at element types and sizes, so ranks that agree on those fuse alike. */
  lemma {:induction false} FuseSame(rs: seq<Response>, t: Table, u: Table, limit: int)
    requires SameTensors(rs, t, u)
    ensures Fuse(rs, t, limit) == Fuse(rs, u, limit)
    decreases |rs|
  {
    if rs != [] {
      if Reduces(rs[0].kind) || Gathers(rs[0]) {
        assert Cost(rs[0], rs[0], t) == Cost(rs[0], rs[0], u);
        ScanSame(rs[0], Cost(rs[0], rs[0], t), 0, rs[1..], t, u, limit);
      }
      FuseStep(rs, t, limit);
      FuseStep(rs, u, limit);
      SameTensorsPart(GroupOf(rs, t, limit).1, rs[1..], t, u);
      FuseSame(GroupOf(rs, t, limit).1, t, u, limit);
    }
  }
}
