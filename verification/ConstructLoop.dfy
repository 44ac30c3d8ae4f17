/** The coordinator's checks as loops over the requests, each one stopping at its first offender. */
module ConstructLoops {
  import opened Messages
  import opened Validation

  /** Compares every request with the first one. */
  method CheckTypes(ms: seq<Request>) returns (errors: seq<Mismatch>)
    requires ms != []
    ensures errors == TypeErrors(ms, 1)
  {
    var dataType := ms[0].dtype;
    var i := 1;
    while i < |ms|
      invariant 1 <= i <= |ms| && TypeErrors(ms, 1) == TypeErrors(ms, i)
    {
      if dataType != ms[i].dtype { return [MixedTypes(dataType, ms[i].dtype)]; }
      i := i + 1;
    }
    errors := [];
  }

  method CheckOperations(ms: seq<Request>) returns (errors: seq<Mismatch>)
    requires ms != []
    ensures errors == OperationErrors(ms, 1)
  {
    var messageType := ms[0].op;
    var i := 1;
    while i < |ms|
      invariant 1 <= i <= |ms| && OperationErrors(ms, 1) == OperationErrors(ms, i)
    {
      if messageType != ms[i].op { return [MixedOperations(messageType, ms[i].op)]; }
      i := i + 1;
    }
    errors := [];
  }

  method CheckShapes(ms: seq<Request>) returns (errors: seq<Mismatch>)
    requires ms != []
    ensures errors == ShapeErrors(ms, 1)
  {
    var tensorShape := ms[0].shape;
    var i := 1;
    while i < |ms|
      invariant 1 <= i <= |ms| && ShapeErrors(ms, 1) == ShapeErrors(ms, i)
    {
      if tensorShape != ms[i].shape { return [MixedShapes(ms[0].op, tensorShape, ms[i].shape)]; }
      i := i + 1;
    }
    errors := [];
  }

  /** Checks all dimensions but the first, and files the first ones under the ranks that sent them. */
  method CheckGather(ms: seq<Request>, width: nat) returns (errors: seq<Mismatch>, sizes: seq<nat>)
    requires ms != [] && ms[0].shape != [] && width == |ms| && forall m :: m in ms ==> m.rank < width
    ensures errors == GatherErrors(ms, 1) && |sizes| == width
    ensures errors == [] ==> sizes == FileSizes(ms, width)
  {
    var tensorShape := ms[0].shape;
    sizes := seq(width, i => 0);
    assert ms[0] in ms && ms[..1][..0] == [];
    sizes := sizes[ms[0].rank := tensorShape[0]];
    var i := 1;
    while i < |ms|
      invariant 1 <= i <= |ms| && GatherErrors(ms, 1) == GatherErrors(ms, i) && sizes == FileSizes(ms[..i], width)
    {
      assert ms[i] in ms;
      var requestShape := ms[i].shape;
      if |tensorShape| != |requestShape| { return [MixedRanks(|tensorShape|, |requestShape|)], sizes; }
      var dim := 1;
      while dim < |tensorShape|
        invariant 1 <= dim <= |tensorShape|
          && DimensionErrors(tensorShape, requestShape, 1) == DimensionErrors(tensorShape, requestShape, dim)
      {
        if tensorShape[dim] != requestShape[dim] {
          return [MixedDimension(dim, tensorShape[dim], requestShape[dim])], sizes;
        }
        dim := dim + 1;
      }
      assert ms[..i + 1][..i] == ms[..i];
      sizes := sizes[ms[i].rank := requestShape[0]];
      i := i + 1;
    }
    errors := [];
    assert ms[..i] == ms;
  }

  method CheckRoots(ms: seq<Request>) returns (errors: seq<Mismatch>)
    requires ms != []
    ensures errors == RootErrors(ms, 1)
  {
    var firstRootRank := ms[0].root;
    var i := 1;
    while i < |ms|
      invariant 1 <= i <= |ms| && RootErrors(ms, 1) == RootErrors(ms, i)
    {
      if firstRootRank != ms[i].root { return [MixedRoots(firstRootRank, ms[i].root)]; }
      i := i + 1;
    }
    errors := [];
  }

  method CheckPlacement(ms: seq<Request>) returns (errors: seq<Mismatch>)
    requires ms != []
    ensures errors == PlacementErrors(ms, 1)
  {
    var firstDeviceIsCpu := ms[0].device == CPU_DEVICE;
    var i := 1;
    while i < |ms|
      invariant 1 <= i <= |ms| && PlacementErrors(ms, 1) == PlacementErrors(ms, i)
    {
      var thisDeviceIsCpu := ms[i].device == CPU_DEVICE;
      if firstDeviceIsCpu != thisDeviceIsCpu { return [MixedPlacement(firstDeviceIsCpu, thisDeviceIsCpu)]; }
      i := i + 1;
    }
    errors := [];
  }

  method CollectDevices(ms: seq<Request>, width: nat) returns (devices: seq<int>)
    requires width == |ms| && forall m :: m in ms ==> m.rank < width
    ensures devices == FileDevices(ms, width)
  {
    devices := seq(width, i => 0);
    var i := 0;
    while i < |ms|
      invariant i <= |ms| && devices == FileDevices(ms[..i], width)
    {
      assert ms[i] in ms && ms[..i + 1][..i] == ms[..i];
      devices := devices[ms[i].rank := ms[i].device];
      i := i + 1;
    }
    assert ms[..i] == ms;
  }

  /** The verdict on the requests for one tensor; a check is skipped once there is an error, but scalars are always
      reported. */
  method Validate(name: string, ms: seq<Request>) returns (response: Response)
    requires ms != [] && forall m :: m in ms ==> m.rank < |ms|
    ensures response == Construct(name, ms)
  {
    hide TypeErrors, OperationErrors, ShapeErrors, GatherErrors, RootErrors, PlacementErrors, FileSizes, FileDevices;
    var errors := CheckTypes(ms);
    if errors == [] { errors := CheckOperations(ms); }
    var messageType := ms[0].op;
    if messageType != Allgather && errors == [] { errors := CheckShapes(ms); }
    var tensorSizes: seq<nat> := [];
    if messageType == Allgather {
      if ms[0].shape == [] {
        errors := errors + [ScalarGather];
      } else if errors == [] {
        errors, tensorSizes := CheckGather(ms, |ms|);
      }
    }
    if messageType == Broadcast && errors == [] { errors := CheckRoots(ms); }
    if errors == [] { errors := CheckPlacement(ms); }
    var devices := CollectDevices(ms, |ms|);
    assert errors == Errors(ms);
    if errors != [] {
      response := Response(Failed(errors), [name], devices, []);
    } else {
      response := Response(Perform(messageType), [name], devices, if messageType == Allgather then tensorSizes else []);
    }
  }
}
