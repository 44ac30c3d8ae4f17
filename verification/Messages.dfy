/**
  Values that travel between the ranks: requests, responses and the few tensor
  attributes the negotiation looks at.  Messages are immutable values; the wire
  encoding is not part of this model.
 */
module Messages {

  datatype Option<+T> = None | Some(value: T)

  datatype DataType = Uint8 | Int8 | Uint16 | Int16 | Int32 | Int64 | Float16 | Float32 | Float64 | Bool | Byte

  /** The operations a rank can ask for; Join is not part of this model. */
  datatype Operation = Allreduce | Allgather | Broadcast | Adasum

  const CPU_DEVICE := -1

  datatype Request = Request(
    rank: nat,
    op: Operation,
    dtype: DataType,
    name: string,
    root: int,
    device: int,
    shape: seq<nat>)

  /** What the tensor table, and the cache, remember about one tensor. */
  datatype TensorParams = TensorParams(dtype: DataType, shape: seq<nat>, device: int)

  /** One clause of an error message. */
  datatype Mismatch =
    | MixedTypes(first: DataType, other: DataType)
    | MixedOperations(firstOp: Operation, otherOp: Operation)
    | MixedShapes(op: Operation, firstShape: seq<nat>, otherShape: seq<nat>)
    | ScalarGather
    | MixedRanks(firstDims: nat, otherDims: nat)
    | MixedDimension(dim: nat, firstSize: nat, otherSize: nat)
    | MixedRoots(firstRoot: int, otherRoot: int)
    | MixedPlacement(firstIsCpu: bool, otherIsCpu: bool)

  datatype ResponseKind = Perform(op: Operation) | Failed(why: seq<Mismatch>)

  datatype Response = Response(kind: ResponseKind, names: seq<string>, devices: seq<int>, sizes: seq<nat>)

  datatype ResponseList = ResponseList(responses: seq<Response>, shutdown: bool)

  /** The outcomes of a step that the program ends with an exception or a failed assertion. */
  datatype Fault =
    | MissingKey      // a table or cache lookup of an absent name
    | CacheConflict   // "Trying to overwrite cached response with existing name"
    | Diverged        // ranks enter different collectives

  datatype Result<+T> = Ok(value: T) | Err(fault: Fault) {
    predicate IsFailure() { Err? }
    function PropagateFailure<U>(): Result<U> requires Err? { Err(fault) }
    function Extract(): T requires Ok? { value }
  }

  /** The attributes of the tensor a request was made for. */
  function ParamsOf(m: Request): TensorParams {
    TensorParams(m.dtype, m.shape, m.device)
  }

  /** Name of a response that carries a single tensor. */
  function NameOf(r: Response): string {
    if r.names == [] then "" else r.names[0]
  }

  /** The responses that every rank may cache: reductions agreed on by all ranks. */
  predicate Reduces(kind: ResponseKind) {
    kind == Perform(Allreduce) || kind == Perform(Adasum)
  }

  function ElementSize(dtype: DataType): nat {
    match dtype
    case Uint8 | Int8 | Bool | Byte => 1
    case Uint16 | Int16 | Float16 => 2
    case Int32 | Float32 => 4
    case Int64 | Float64 => 8
  }

  function Product(dims: seq<nat>): nat {
    if dims == [] then 1 else dims[0] * Product(dims[1..])
  }

  function Sum(s: seq<nat>): nat {
    if s == [] then 0 else s[0] + Sum(s[1..])
  }

  /** Bytes of a dense tensor. */
  function Bytes(p: TensorParams): nat {
    Product(p.shape) * ElementSize(p.dtype)
  }

  /** Bytes an allgather produces when the ranks contribute `sizes` rows each. */
  function GatherBytes(sizes: seq<nat>, p: TensorParams): nat {
    Sum(sizes) * Product(if p.shape == [] then [] else p.shape[1..]) * ElementSize(p.dtype)
  }
}
