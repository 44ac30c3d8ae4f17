/**
  Turning the requests of all ranks for one tensor into a response.  The checks run in a
  fixed order over the requests as they arrived; each check stops at its first offender.
 */
module Validation {
  import opened Messages

  /** Sizes of the first dimension, or the devices, filed under the rank that sent them. */
  function FileSizes(ms: seq<Request>, width: nat): (s: seq<nat>)
    ensures |s| == width
  {
    if ms == [] then seq(width, i => 0)
    else
      var before, m := FileSizes(ms[..|ms| - 1], width), ms[|ms| - 1];
      if m.rank < width && m.shape != [] then before[m.rank := m.shape[0]] else before
  }

  function FileDevices(ms: seq<Request>, width: nat): (s: seq<int>)
    ensures |s| == width
  {
    if ms == [] then seq(width, i => 0)
    else
      var before, m := FileDevices(ms[..|ms| - 1], width), ms[|ms| - 1];
      if m.rank < width then before[m.rank := m.device] else before
  }

  function TypeErrors(ms: seq<Request>, i: nat): seq<Mismatch>
    requires 1 <= i <= |ms|
    decreases |ms| - i
  {
    if i == |ms| then []
    else if ms[0].dtype != ms[i].dtype then [MixedTypes(ms[0].dtype, ms[i].dtype)]
    else TypeErrors(ms, i + 1)
  }

  function OperationErrors(ms: seq<Request>, i: nat): seq<Mismatch>
    requires 1 <= i <= |ms|
    decreases |ms| - i
  {
    if i == |ms| then []
    else if ms[0].op != ms[i].op then [MixedOperations(ms[0].op, ms[i].op)]
    else OperationErrors(ms, i + 1)
  }

  function ShapeErrors(ms: seq<Request>, i: nat): seq<Mismatch>
    requires 1 <= i <= |ms|
    decreases |ms| - i
  {
    if i == |ms| then []
    else if ms[0].shape != ms[i].shape then [MixedShapes(ms[0].op, ms[0].shape, ms[i].shape)]
    else ShapeErrors(ms, i + 1)
  }

  function DimensionErrors(a: seq<nat>, b: seq<nat>, dim: nat): seq<Mismatch>
    requires |a| == |b| && dim <= |a|
    decreases |a| - dim
  {
    if dim == |a| then []
    else if a[dim] != b[dim] then [MixedDimension(dim, a[dim], b[dim])]
    else DimensionErrors(a, b, dim + 1)
  }

  function GatherErrors(ms: seq<Request>, i: nat): seq<Mismatch>
    requires 1 <= i <= |ms| && ms[0].shape != []
    decreases |ms| - i
  {
    if i == |ms| then []
    else if |ms[0].shape| != |ms[i].shape| then [MixedRanks(|ms[0].shape|, |ms[i].shape|)]
    else
      var e := DimensionErrors(ms[0].shape, ms[i].shape, 1);
      if e != [] then e else GatherErrors(ms, i + 1)
  }

  function RootErrors(ms: seq<Request>, i: nat): seq<Mismatch>
    requires 1 <= i <= |ms|
    decreases |ms| - i
  {
    if i == |ms| then []
    else if ms[0].root != ms[i].root then [MixedRoots(ms[0].root, ms[i].root)]
    else RootErrors(ms, i + 1)
  }

  predicate OnCpu(m: Request) {
    m.device == CPU_DEVICE
  }

  function PlacementErrors(ms: seq<Request>, i: nat): seq<Mismatch>
    requires 1 <= i <= |ms|
    decreases |ms| - i
  {
    if i == |ms| then []
    else if OnCpu(ms[0]) != OnCpu(ms[i]) then [MixedPlacement(OnCpu(ms[0]), OnCpu(ms[i]))]
    else PlacementErrors(ms, i + 1)
  }

  /** Clauses collected by the checks, in the order in which the checks run. */
  function Errors(ms: seq<Request>): seq<Mismatch>
    requires ms != []
  {
    var op := ms[0].op;
    var e1 := TypeErrors(ms, 1);
    var e2 := if e1 != [] then e1 else OperationErrors(ms, 1);
    var e3 := if e2 != [] || op == Allgather then e2 else ShapeErrors(ms, 1);
    var e4 := if op != Allgather then e3
              else if ms[0].shape == [] then e3 + [ScalarGather]
              else if e3 != [] then e3 else GatherErrors(ms, 1);
    var e5 := if op != Broadcast || e4 != [] then e4 else RootErrors(ms, 1);
    if e5 != [] then e5 else PlacementErrors(ms, 1)
  }

  function Construct(name: string, ms: seq<Request>): Response
    requires ms != []
  {
    var errors, devices := Errors(ms), FileDevices(ms, |ms|);
    if errors != [] then Response(Failed(errors), [name], devices, [])
    else Response(Perform(ms[0].op), [name], devices, if ms[0].op == Allgather then FileSizes(ms, |ms|) else [])
  }
}
