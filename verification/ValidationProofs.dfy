/** When requests agree, and why their order of arrival does not matter. */
module ValidationProofs {
  import opened Messages
  import opened Sequences
  import opened Validation
  import opened Invariants
  import opened TallyProofs

  /** Two requests that one collective can serve. */
  predicate Fit(a: Request, b: Request) {
    && a.dtype == b.dtype
    && a.op == b.op
    && (if a.op == Allgather then a.shape != [] && b.shape != [] && a.shape[1..] == b.shape[1..]
      else a.shape == b.shape)
    && (a.op == Broadcast ==> a.root == b.root)
    && OnCpu(a) == OnCpu(b)
  }

  ghost predicate Agreed(ms: seq<Request>) {
    forall a, b :: a in ms && b in ms ==> Fit(a, b)
  }

  lemma {:induction false} TypesEqual(ms: seq<Request>, i: nat)
    requires 1 <= i <= |ms|
    ensures TypeErrors(ms, i) == [] <==> forall j :: i <= j < |ms| ==> ms[j].dtype == ms[0].dtype
    decreases |ms| - i
  {
    if i < |ms| { TypesEqual(ms, i + 1); }
  }

  lemma {:induction false} OperationsEqual(ms: seq<Request>, i: nat)
    requires 1 <= i <= |ms|
    ensures OperationErrors(ms, i) == [] <==> forall j :: i <= j < |ms| ==> ms[j].op == ms[0].op
    decreases |ms| - i
  {
    if i < |ms| { OperationsEqual(ms, i + 1); }
  }

  lemma {:induction false} ShapesEqual(ms: seq<Request>, i: nat)
    requires 1 <= i <= |ms|
    ensures ShapeErrors(ms, i) == [] <==> forall j :: i <= j < |ms| ==> ms[j].shape == ms[0].shape
    decreases |ms| - i
  {
    if i < |ms| { ShapesEqual(ms, i + 1); }
  }

  lemma {:induction false} DimensionsEqual(a: seq<nat>, b: seq<nat>, dim: nat)
    requires |a| == |b| && dim <= |a|
    ensures DimensionErrors(a, b, dim) == [] <==> a[dim..] == b[dim..]
    decreases |a| - dim
  {
    if dim < |a| {
      DimensionsEqual(a, b, dim + 1);
      assert a[dim..] == [a[dim]] + a[dim + 1..] && b[dim..] == [b[dim]] + b[dim + 1..];
    }
  }

  predicate SameRows(a: Request, b: Request) {
    a.shape != [] && b.shape != [] && a.shape[1..] == b.shape[1..]
  }

  lemma {:induction false} RowsEqual(ms: seq<Request>, i: nat)
    requires 1 <= i <= |ms| && ms[0].shape != []
    ensures GatherErrors(ms, i) == [] <==> forall j :: i <= j < |ms| ==> SameRows(ms[0], ms[j])
    decreases |ms| - i
  {
    if i < |ms| {
      RowsEqual(ms, i + 1);
      var a, b := ms[0].shape, ms[i].shape;
      if |a| == |b| {
        DimensionsEqual(a, b, 1);
      } else if b != [] {
        assert |a[1..]| != |b[1..]|;
      }
    }
  }

  lemma {:induction false} RootsEqual(ms: seq<Request>, i: nat)
    requires 1 <= i <= |ms|
    ensures RootErrors(ms, i) == [] <==> forall j :: i <= j < |ms| ==> ms[j].root == ms[0].root
    decreases |ms| - i
  {
    if i < |ms| { RootsEqual(ms, i + 1); }
  }

  lemma {:induction false} PlacementsEqual(ms: seq<Request>, i: nat)
    requires 1 <= i <= |ms|
    ensures PlacementErrors(ms, i) == [] <==> forall j :: i <= j < |ms| ==> OnCpu(ms[j]) == OnCpu(ms[0])
    decreases |ms| - i
  {
    if i < |ms| { PlacementsEqual(ms, i + 1); }
  }

  /** An error is reported exactly when two of the requests cannot be served together. */
  lemma {:induction false} ErrorsIff(ms: seq<Request>)
    requires ms != []
    ensures Errors(ms) == [] <==> Agreed(ms)
  {
    TypesEqual(ms, 1);
    OperationsEqual(ms, 1);
    ShapesEqual(ms, 1);
    if ms[0].shape != [] { RowsEqual(ms, 1); }
    RootsEqual(ms, 1);
    PlacementsEqual(ms, 1);
    FirstFits(ms);
    if Agreed(ms) {
      forall j | 0 <= j < |ms| ensures Fit(ms[0], ms[j]) { assert ms[0] in ms && ms[j] in ms; }
    }
    if Errors(ms) == [] {
      forall j | 0 <= j < |ms| ensures Fit(ms[0], ms[j]) { }
    }
  }

  /** Comparing with the first request is as good as comparing all pairs. */
  lemma {:induction false} FirstFits(ms: seq<Request>)
    requires ms != []
    ensures (forall j :: 0 <= j < |ms| ==> Fit(ms[0], ms[j])) ==> Agreed(ms)
  {
  }

  lemma {:induction false} DevicesFiled(ms: seq<Request>, width: nat, m: Request)
    requires DistinctRanks(ms) && m in ms && m.rank < width
    ensures FileDevices(ms, width)[m.rank] == m.device
  {
    var front, last := ms[..|ms| - 1], ms[|ms| - 1];
    if m != last {
      assert m in front;
      DevicesFiled(front, width, m);
    }
  }

  lemma {:induction false} SizesFiled(ms: seq<Request>, width: nat, m: Request)
    requires DistinctRanks(ms) && m in ms && m.rank < width && m.shape != []
    ensures FileSizes(ms, width)[m.rank] == m.shape[0]
  {
    var front, last := ms[..|ms| - 1], ms[|ms| - 1];
    if m != last {
      assert m in front;
      SizesFiled(front, width, m);
    }
  }

  /** One request from each of `|ms|` ranks. */
  ghost predicate Complete(ms: seq<Request>) {
    ms != [] && DistinctRanks(ms) && forall m :: m in ms ==> m.rank < |ms|
  }

  lemma {:induction false} CompleteRank(ms: seq<Request>, r: nat) returns (m: Request)
    requires Complete(ms) && r < |ms|
    ensures m in ms && m.rank == r
  {
    AllRanks(ms, |ms|);
    assert r in RankSet(ms);
    m :| m in ms && m.rank == r;
  }

  /** What all ranks are told: whether, and what, to perform, each rank's device and each rank's rows. */
  lemma {:induction false} ConstructMeaning(name: string, ms: seq<Request>)
    requires Complete(ms)
    ensures
      var r := Construct(name, ms);
      && r.names == [name]
      && (r.kind.Failed? <==> !Agreed(ms))
      && (r.kind.Perform? ==> forall m :: m in ms ==> m.op == r.kind.op)
      && |r.devices| == |ms| && (forall m :: m in ms ==> r.devices[m.rank] == m.device)
      && (if r.kind == Perform(Allgather)
          then |r.sizes| == |ms| && forall m :: m in ms ==> m.shape != [] && r.sizes[m.rank] == m.shape[0]
          else r.sizes == [])
  {
    ErrorsIff(ms);
    assert ms[0] in ms;
    forall m | m in ms
      ensures FileDevices(ms, |ms|)[m.rank] == m.device
      ensures Agreed(ms) ==> Fit(ms[0], m)
      ensures m.shape != [] ==> FileSizes(ms, |ms|)[m.rank] == m.shape[0]
    {
      DevicesFiled(ms, |ms|, m);
      if m.shape != [] { SizesFiled(ms, |ms|, m); }
    }
  }

  /** The verdict, the devices and the sizes do not depend on the order in which requests arrive. */
  lemma {:induction false} OrderIrrelevant(name: string, ms: seq<Request>, other: seq<Request>)
    requires Complete(ms) && multiset(ms) == multiset(other)
    ensures Complete(other)
    ensures
      var r, s := Construct(name, ms), Construct(name, other);
      && r.kind.Failed? == s.kind.Failed?
      && (r.kind.Perform? ==> r == s)
      && r.devices == s.devices && r.sizes == s.sizes
  {
    SameMembers(ms, other);
    PermutedRanks(ms, other);
    ConstructMeaning(name, ms);
    ConstructMeaning(name, other);
    var r, s := Construct(name, ms), Construct(name, other);
    assert other[0] in ms;
    forall i | 0 <= i < |ms|
      ensures r.devices[i] == s.devices[i]
      ensures r.kind == Perform(Allgather) == s.kind ==> r.sizes[i] == s.sizes[i]
    {
      var m := CompleteRank(ms, i);
      assert m in other;
    }
  }

  lemma {:induction false} SameMembers<T(!new)>(a: seq<T>, b: seq<T>)
    requires multiset(a) == multiset(b)
    ensures |a| == |b| && forall x :: x in a <==> x in b
  {
    assert |multiset(a)| == |a| && |multiset(b)| == |b|;
    forall x ensures x in a <==> x in b { assert x in a <==> x in multiset(a); }
  }

  lemma {:induction false} PermutedRanks(a: seq<Request>, b: seq<Request>)
    requires DistinctRanks(a) && multiset(a) == multiset(b)
    ensures DistinctRanks(b)
  {
    SameMembers(a, b);
    DistinctSet(a);
    SetDistinct(b);
  }

  lemma {:induction false} DistinctSet(a: seq<Request>)
    requires DistinctRanks(a)
    ensures forall x, y :: x in a && y in a && x.rank == y.rank ==> x == y
    ensures forall x :: multiset(a)[x] <= 1
  {
    if a != [] {
      var front, m := a[..|a| - 1], a[|a| - 1];
      assert a == front + [m];
      DistinctSet(front);
      assert m !in front;
    }
  }

  lemma {:induction false} SetDistinct(b: seq<Request>)
    requires forall x, y :: x in b && y in b && x.rank == y.rank ==> x == y
    requires forall x :: multiset(b)[x] <= 1
    ensures DistinctRanks(b)
  {
    forall i, j | 0 <= i < j < |b| ensures b[i].rank != b[j].rank {
      OccursTwice(b, i, j);
      assert b[i] in b && b[j] in b;
    }
  }
}
