/** What an error message says: which check failed first, at whose request, and the values that differ. */
module ErrorProofs {
  import opened Messages
  import opened Validation

  /** The checks in the order in which they run. */
  datatype Check = Types | Operations | Shapes | Rows | Roots | Placement

  function Place(c: Check): nat {
    match c
    case Types => 0
    case Operations => 1
    case Shapes => 2
    case Rows => 3
    case Roots => 4
    case Placement => 5
  }

  /** A request fails a check against the first one; not every check is made for every operation. */
  predicate Fails(c: Check, first: Request, m: Request) {
    match c
    case Types => m.dtype != first.dtype
    case Operations => m.op != first.op
    case Shapes => first.op != Allgather && m.shape != first.shape
    case Rows => first.op == Allgather && first.shape != []
      && (|m.shape| != |first.shape| || exists d :: 1 <= d < |first.shape| && m.shape[d] != first.shape[d])
    case Roots => first.op == Broadcast && m.root != first.root
    case Placement => (m.device == CPU_DEVICE) != (first.device == CPU_DEVICE)
  }

  /** The clause says of both requests what they asked for. */
  predicate Says(c: Check, first: Request, m: Request, e: Mismatch) {
    match c
    case Types => e == MixedTypes(first.dtype, m.dtype)
    case Operations => e == MixedOperations(first.op, m.op)
    case Shapes => e == MixedShapes(first.op, first.shape, m.shape)
    case Rows =>
      if |m.shape| != |first.shape| then e == MixedRanks(|first.shape|, |m.shape|)
      else
        && e.MixedDimension? && 1 <= e.dim < |first.shape|
        && e == MixedDimension(e.dim, first.shape[e.dim], m.shape[e.dim]) && e.firstSize != e.otherSize
        && forall d :: 1 <= d < e.dim ==> m.shape[d] == first.shape[d]
    case Roots => e == MixedRoots(first.root, m.root)
    case Placement => e == MixedPlacement(first.device == CPU_DEVICE, m.device == CPU_DEVICE)
  }

  /** An allgather of scalars. */
  predicate Scalar(ms: seq<Request>)
    requires ms != []
  {
    ms[0].op == Allgather && ms[0].shape == []
  }

  ghost predicate Passed(c: Check, ms: seq<Request>, i: nat)
    requires ms != [] && i <= |ms|
  {
    forall k :: 1 <= k < i ==> !Fails(c, ms[0], ms[k])
  }

  /** Request j is the first to fail the first check that some request fails. */
  ghost predicate Offends(c: Check, ms: seq<Request>, j: nat) {
    && 1 <= j < |ms| && Fails(c, ms[0], ms[j]) && Passed(c, ms, j)
    && forall b: Check :: Place(b) < Place(c) ==> Passed(b, ms, |ms|)
  }

  // ---------------------------------------------------------------------
  // One check at a time
  // ---------------------------------------------------------------------

  lemma {:induction false} TypesFind(ms: seq<Request>, i: nat, j: nat)
    requires 1 <= i <= j <= |ms| && forall k :: i <= k < j ==> !Fails(Types, ms[0], ms[k])
    ensures j == |ms| ==> TypeErrors(ms, i) == []
    ensures j < |ms| && Fails(Types, ms[0], ms[j]) ==> TypeErrors(ms, i) == [MixedTypes(ms[0].dtype, ms[j].dtype)]
    decreases |ms| - i
  {
    if i < j { TypesFind(ms, i + 1, j); }
  }

  lemma {:induction false} OperationsFind(ms: seq<Request>, i: nat, j: nat)
    requires 1 <= i <= j <= |ms| && forall k :: i <= k < j ==> !Fails(Operations, ms[0], ms[k])
    ensures j == |ms| ==> OperationErrors(ms, i) == []
    ensures j < |ms| && Fails(Operations, ms[0], ms[j]) ==>
      OperationErrors(ms, i) == [MixedOperations(ms[0].op, ms[j].op)]
    decreases |ms| - i
  {
    if i < j { OperationsFind(ms, i + 1, j); }
  }

  lemma {:induction false} ShapesFind(ms: seq<Request>, i: nat, j: nat)
    requires 1 <= i <= j <= |ms| && ms[0].op != Allgather && forall k :: i <= k < j ==> !Fails(Shapes, ms[0], ms[k])
    ensures j == |ms| ==> ShapeErrors(ms, i) == []
    ensures j < |ms| && Fails(Shapes, ms[0], ms[j]) ==>
      ShapeErrors(ms, i) == [MixedShapes(ms[0].op, ms[0].shape, ms[j].shape)]
    decreases |ms| - i
  {
    if i < j { ShapesFind(ms, i + 1, j); }
  }

  lemma {:induction false} RootsFind(ms: seq<Request>, i: nat, j: nat)
    requires 1 <= i <= j <= |ms| && ms[0].op == Broadcast && forall k :: i <= k < j ==> !Fails(Roots, ms[0], ms[k])
    ensures j == |ms| ==> RootErrors(ms, i) == []
    ensures j < |ms| && Fails(Roots, ms[0], ms[j]) ==> RootErrors(ms, i) == [MixedRoots(ms[0].root, ms[j].root)]
    decreases |ms| - i
  {
    if i < j { RootsFind(ms, i + 1, j); }
  }

  lemma {:induction false} PlacementFinds(ms: seq<Request>, i: nat, j: nat)
    requires 1 <= i <= j <= |ms| && forall k :: i <= k < j ==> !Fails(Placement, ms[0], ms[k])
    ensures j == |ms| ==> PlacementErrors(ms, i) == []
    ensures j < |ms| && Fails(Placement, ms[0], ms[j]) ==>
      PlacementErrors(ms, i) == [MixedPlacement(ms[0].device == CPU_DEVICE, ms[j].device == CPU_DEVICE)]
    decreases |ms| - i
  {
    if i < j { PlacementFinds(ms, i + 1, j); }
  }

  /** The first dimension that differs, if any. */
  lemma {:induction false} DimensionsFind(a: seq<nat>, b: seq<nat>, dim: nat)
    requires |a| == |b| && dim <= |a|
    ensures (forall d :: dim <= d < |a| ==> b[d] == a[d]) ==> DimensionErrors(a, b, dim) == []
    ensures (exists d :: dim <= d < |a| && b[d] != a[d]) ==>
      |DimensionErrors(a, b, dim)| == 1
      && var e := DimensionErrors(a, b, dim)[0];
         && e.MixedDimension? && dim <= e.dim < |a| && e == MixedDimension(e.dim, a[e.dim], b[e.dim])
         && a[e.dim] != b[e.dim] && forall d :: dim <= d < e.dim ==> b[d] == a[d]
    decreases |a| - dim
  {
    if dim < |a| { DimensionsFind(a, b, dim + 1); }
  }

  lemma {:induction false} RowsFind(ms: seq<Request>, i: nat, j: nat)
    requires 1 <= i <= j <= |ms| && ms[0].op == Allgather && ms[0].shape != []
    requires forall k :: i <= k < j ==> !Fails(Rows, ms[0], ms[k])
    ensures j == |ms| ==> GatherErrors(ms, i) == []
    ensures j < |ms| && Fails(Rows, ms[0], ms[j]) ==>
      |GatherErrors(ms, i)| == 1 && Says(Rows, ms[0], ms[j], GatherErrors(ms, i)[0])
    decreases |ms| - i
  {
    if i < |ms| && |ms[0].shape| == |ms[i].shape| { DimensionsFind(ms[0].shape, ms[i].shape, 1); }
    if i < j {
      assert !Fails(Rows, ms[0], ms[i]);
      RowsFind(ms, i + 1, j);
    }
  }

  // ---------------------------------------------------------------------
  // All checks
  // ---------------------------------------------------------------------

  lemma {:induction false} CheckFinds(ms: seq<Request>, j: nat)
    requires ms != [] && 1 <= j <= |ms|
    ensures Passed(Types, ms, j) ==>
      (j == |ms| ==> TypeErrors(ms, 1) == [])
      && (j < |ms| && Fails(Types, ms[0], ms[j]) ==> TypeErrors(ms, 1) == [MixedTypes(ms[0].dtype, ms[j].dtype)])
    ensures Passed(Operations, ms, j) ==>
      (j == |ms| ==> OperationErrors(ms, 1) == [])
      && (j < |ms| && Fails(Operations, ms[0], ms[j]) ==>
        OperationErrors(ms, 1) == [MixedOperations(ms[0].op, ms[j].op)])
    ensures ms[0].op != Allgather && Passed(Shapes, ms, j) ==>
      (j == |ms| ==> ShapeErrors(ms, 1) == [])
      && (j < |ms| && Fails(Shapes, ms[0], ms[j]) ==>
        ShapeErrors(ms, 1) == [MixedShapes(ms[0].op, ms[0].shape, ms[j].shape)])
    ensures ms[0].op == Allgather && ms[0].shape != [] && Passed(Rows, ms, j) ==>
      (j == |ms| ==> GatherErrors(ms, 1) == [])
      && (j < |ms| && Fails(Rows, ms[0], ms[j]) ==>
        |GatherErrors(ms, 1)| == 1 && Says(Rows, ms[0], ms[j], GatherErrors(ms, 1)[0]))
    ensures ms[0].op == Broadcast && Passed(Roots, ms, j) ==>
      (j == |ms| ==> RootErrors(ms, 1) == [])
      && (j < |ms| && Fails(Roots, ms[0], ms[j]) ==> RootErrors(ms, 1) == [MixedRoots(ms[0].root, ms[j].root)])
    ensures Passed(Placement, ms, j) ==>
      (j == |ms| ==> PlacementErrors(ms, 1) == [])
      && (j < |ms| && Fails(Placement, ms[0], ms[j]) ==>
        PlacementErrors(ms, 1) == [MixedPlacement(ms[0].device == CPU_DEVICE, ms[j].device == CPU_DEVICE)])
  {
    hide Fails, Says;
    if Passed(Types, ms, j) { TypesFind(ms, 1, j); }
    if Passed(Operations, ms, j) { OperationsFind(ms, 1, j); }
    if ms[0].op != Allgather && Passed(Shapes, ms, j) { ShapesFind(ms, 1, j); }
    if ms[0].op == Allgather && ms[0].shape != [] && Passed(Rows, ms, j) { RowsFind(ms, 1, j); }
    if ms[0].op == Broadcast && Passed(Roots, ms, j) { RootsFind(ms, 1, j); }
    if Passed(Placement, ms, j) { PlacementFinds(ms, 1, j); }
  }

  /** The message starts with what the first offender of the first failed check did wrong; an allgather of scalars is
      reported besides a mixed type or operation, and instead of anything later. */
  lemma {:induction false} FirstOffender(c: Check, ms: seq<Request>, j: nat)
    requires ms != [] && Offends(c, ms, j) && (Scalar(ms) ==> c == Types || c == Operations)
    ensures Errors(ms) != [] && Says(c, ms[0], ms[j], Errors(ms)[0])
    ensures Errors(ms)[1..] == if Scalar(ms) then [ScalarGather] else []
  {
    forall b: Check | Place(b) < Place(c) ensures Passed(b, ms, |ms|) {}
    assert Place(c) > 0 ==> Passed(Types, ms, |ms|);
    assert Place(c) > 1 ==> Passed(Operations, ms, |ms|);
    assert Place(c) > 2 ==> Passed(Shapes, ms, |ms|);
    assert Place(c) > 3 ==> Passed(Rows, ms, |ms|);
    assert Place(c) > 4 ==> Passed(Roots, ms, |ms|);
    CheckFinds(ms, j);
    CheckFinds(ms, |ms|);
    hide TypeErrors, OperationErrors, ShapeErrors, GatherErrors, RootErrors, PlacementErrors, Passed;
  }

  /** Scalars alone: the requests agree on type and operation. */
  lemma {:induction false} ScalarsOnly(ms: seq<Request>)
    requires ms != [] && Scalar(ms) && Passed(Types, ms, |ms|) && Passed(Operations, ms, |ms|)
    ensures Errors(ms) == [ScalarGather]
  {
    CheckFinds(ms, |ms|);
  }

  lemma {:induction false} FirstFailing(c: Check, ms: seq<Request>, i: nat) returns (j: nat)
    requires ms != [] && i <= |ms| && !Passed(c, ms, i)
    ensures 1 <= j < i && Fails(c, ms[0], ms[j]) && Passed(c, ms, j)
  {
    if Passed(c, ms, i - 1) { j := i - 1; } else { j := FirstFailing(c, ms, i - 1); }
  }

  lemma {:induction false} AllPassed(ms: seq<Request>)
    requires ms != [] && !Scalar(ms) && forall c :: Passed(c, ms, |ms|)
    ensures Errors(ms) == []
  {
    assert Passed(Types, ms, |ms|) && Passed(Operations, ms, |ms|) && Passed(Shapes, ms, |ms|);
    assert Passed(Rows, ms, |ms|) && Passed(Roots, ms, |ms|) && Passed(Placement, ms, |ms|);
    CheckFinds(ms, |ms|);
    hide TypeErrors, OperationErrors, ShapeErrors, GatherErrors, RootErrors, PlacementErrors, Passed;
  }

  /** The first check that some request fails. */
  lemma {:induction false} FirstFailed(ms: seq<Request>, place: nat) returns (c: Check)
    requires ms != [] && place <= 6 && exists b: Check :: Place(b) < place && !Passed(b, ms, |ms|)
    ensures Place(c) < place && !Passed(c, ms, |ms|)
    ensures forall b: Check :: Place(b) < Place(c) ==> Passed(b, ms, |ms|)
  {
    if b: Check :| Place(b) < place - 1 && !Passed(b, ms, |ms|) {
      c := FirstFailed(ms, place - 1);
    } else {
      c :| Place(c) < place && !Passed(c, ms, |ms|);
    }
  }

  /** Some later request fails a check against the first one, and the clause says so; or the first one gathers a
      scalar. */
  ghost predicate True(ms: seq<Request>, e: Mismatch)
    requires ms != []
  {
    || (exists c, j :: 1 <= j < |ms| && Fails(c, ms[0], ms[j]) && Says(c, ms[0], ms[j], e))
    || (e == ScalarGather && Scalar(ms))
  }

  /** Every clause of an error message is true of the requests. */
  lemma {:induction false} ErrorsTrue(ms: seq<Request>)
    requires ms != []
    ensures forall e :: e in Errors(ms) ==> True(ms, e)
  {
    hide Fails, Says, Errors;
    if Scalar(ms) && Passed(Types, ms, |ms|) && Passed(Operations, ms, |ms|) {
      ScalarsOnly(ms);
    } else if c: Check :| !Passed(c, ms, |ms|) {
      assert Place(c) < 6;
      var first := FirstFailed(ms, 6);
      var j := FirstFailing(first, ms, |ms|);
      assert Place(first) > 1 ==> Passed(Types, ms, |ms|) && Passed(Operations, ms, |ms|);
      FirstOffender(first, ms, j);
      assert Errors(ms) == [Errors(ms)[0]] + Errors(ms)[1..];
    } else {
      AllPassed(ms);
    }
  }

  /** The response that all ranks get carries the message: the first offender's clause first, and nothing untrue. */
  lemma {:induction false} ErrorReported(name: string, ms: seq<Request>, c: Check, j: nat)
    requires ms != [] && Offends(c, ms, j) && (Scalar(ms) ==> c == Types || c == Operations)
    ensures
      var kind := Construct(name, ms).kind;
      && kind.Failed? && kind.why != [] && Says(c, ms[0], ms[j], kind.why[0])
      && kind.why[1..] == (if Scalar(ms) then [ScalarGather] else [])
      && forall e :: e in kind.why ==> True(ms, e)
  {
    FirstOffender(c, ms, j);
    ErrorsTrue(ms);
    hide Errors, Says, Offends, True;
  }
}
