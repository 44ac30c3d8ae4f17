/**
  Any sequence of cache operations behaves like a plain bounded recency list, and bits move only
  when they are renumbered.
 */
module CacheRuns {
  import opened Messages
  import opened Sequences
  import opened CacheModel

  datatype CacheOp =
    | Use(bit: nat)
    | Drop(bit: nat)
    | Add(response: Response, params: TensorParams)
    | Renumber

  /** The caller's side of the contract: bits are live, responses carry one tensor. */
  predicate Callable(c: Cache, op: CacheOp) {
    match op
    case Use(bit) => Live(c, bit)
    case Drop(bit) => Live(c, bit)
    case Add(r, p) => c.capacity > 0 && r.names == [NameOf(r)]
    case Renumber => true
  }

  function Step(c: Cache, op: CacheOp): Result<Cache>
    requires Callable(c, op)
  {
    match op
    case Use(bit) => Ok(Get(c, bit))
    case Drop(bit) => Ok(Erase(c, bit))
    case Add(r, p) => Put(c, r, p)
    case Renumber => Ok(UpdateBits(c))
  }

  /** A recency list of at most `capacity` names, most recent first. */
  function PlainStep(names: seq<string>, capacity: nat, c: Cache, op: CacheOp): seq<string>
    requires Callable(c, op)
  {
    match op
    case Use(bit) => [c.slots[bit].value] + Without(names, c.slots[bit].value)
    case Drop(bit) => Without(names, c.slots[bit].value)
    case Add(r, p) =>
      var used := [NameOf(r)] + Without(names, NameOf(r));
      if |used| > capacity then used[..capacity] else used
    case Renumber => names
  }

  /** Names that stay cached keep their bits. */
  ghost predicate BitsKept(c: Cache, d: Cache) {
    forall n :: n in c.bits && n in d.bits ==> c.bits[n] == d.bits[n]
  }

  /** A newcomer to a full cache pushes out the last name and takes its bit; nothing else moves. */
  lemma {:induction false} EvictPlain(c: Cache, n: string, e: Entry)
    requires Valid(c) && n !in c.bits && c.order != []
    ensures
      var last := c.order[|c.order| - 1];
      && last in c.bits && Live(c, c.bits[last])
      && Insert(Erase(c, c.bits[last]), n, e, c.bits[last]).order == [n] + c.order[..|c.order| - 1]
      && BitsKept(c, Insert(Erase(c, c.bits[last]), n, e, c.bits[last]))
      && Insert(Erase(c, c.bits[last]), n, e, c.bits[last]).capacity == c.capacity
  {
    var last := c.order[|c.order| - 1];
    assert last in c.order && c.slots[c.bits[last]] == Some(last);
    WithoutLast(c.order);
  }

  lemma {:induction false} TakeFront(n: string, s: seq<string>)
    requires s != []
    ensures ([n] + s)[..|s|] == [n] + s[..|s| - 1]
  {
  }

  lemma {:induction false} AddFull(c: Cache, r: Response, p: TensorParams)
    requires Valid(c) && Callable(c, Add(r, p)) && Cached(c, NameOf(r), p) == Miss && |c.order| == c.capacity
    ensures Put(c, r, p).Ok?
    ensures Put(c, r, p).value.capacity == c.capacity
    ensures Put(c, r, p).value.order == PlainStep(c.order, c.capacity, c, Add(r, p))
    ensures BitsKept(c, Put(c, r, p).value)
  {
    var n := NameOf(r);
    assert n !in c.bits && n !in c.order;
    hide Valid, Insert, Erase, Put, BitsKept, Without, Live, Cached;
    PutCases(c, r, p);
    WithoutAbsent(c.order, n);
    EvictPlain(c, n, Entry(r, p));
    TakeFront(n, c.order);
  }

  lemma {:induction false} AddRoom(c: Cache, r: Response, p: TensorParams)
    requires Valid(c) && Callable(c, Add(r, p)) && Cached(c, NameOf(r), p) == Miss && |c.order| < c.capacity
    ensures Put(c, r, p).Ok?
    ensures Put(c, r, p).value.capacity == c.capacity
    ensures Put(c, r, p).value.order == PlainStep(c.order, c.capacity, c, Add(r, p))
    ensures BitsKept(c, Put(c, r, p).value)
  {
    PutCases(c, r, p);
    hide Put;
    WithoutAbsent(c.order, NameOf(r));
  }

  lemma {:induction false} AddHit(c: Cache, r: Response, p: TensorParams)
    requires Valid(c) && Callable(c, Add(r, p)) && Cached(c, NameOf(r), p) == Hit
    ensures Put(c, r, p).Ok?
    ensures Put(c, r, p).value.capacity == c.capacity
    ensures Put(c, r, p).value.order == PlainStep(c.order, c.capacity, c, Add(r, p))
    ensures BitsKept(c, Put(c, r, p).value)
  {
    PutCases(c, r, p);
    hide Put;
    WithoutDistinct(c.order, NameOf(r));
  }

  lemma {:induction false} AddRefines(c: Cache, r: Response, p: TensorParams)
    requires Valid(c) && Callable(c, Add(r, p)) && Put(c, r, p).Ok?
    ensures Put(c, r, p).value.capacity == c.capacity
    ensures Put(c, r, p).value.order == PlainStep(c.order, c.capacity, c, Add(r, p))
    ensures BitsKept(c, Put(c, r, p).value)
  {
    ValidSize(c);
    hide Valid, Put, BitsKept;
    PutCases(c, r, p);
    if Cached(c, NameOf(r), p) == Hit {
      AddHit(c, r, p);
    } else if |c.order| == c.capacity {
      AddFull(c, r, p);
    } else {
      AddRoom(c, r, p);
    }
  }

  lemma {:induction false} WithoutLast(s: seq<string>)
    requires Distinct(s) && s != []
    ensures Without(s, s[|s| - 1]) == s[..|s| - 1]
  {
    var last := s[|s| - 1];
    if |s| == 1 {
      assert s[1..] == [];
    } else {
      assert s[0] != last && s[1..][|s| - 2] == last;
      WithoutLast(s[1..]);
      assert s[..|s| - 1] == [s[0]] + s[1..][..|s| - 2];
    }
  }

  lemma {:induction false} ValidSize(c: Cache)
    requires Valid(c)
    ensures |c.order| <= c.capacity
  {
  }

  /** One operation: the invariant, the recency list, the bits, and the only way to fail. */
  lemma {:induction false} StepRefines(c: Cache, op: CacheOp)
    requires Valid(c) && Callable(c, op)
    ensures Step(c, op).Err? <==> op.Add? && Cached(c, NameOf(op.response), op.params) == Invalid
    ensures Step(c, op).Ok? ==>
      var d := Step(c, op).value;
      && Valid(d) && d.capacity == c.capacity && |d.order| <= d.capacity
      && d.order == PlainStep(c.order, c.capacity, c, op)
      && (if op.Renumber? then Canonical(d) else BitsKept(c, d))
  {
    match op
    case Use(bit) => TouchValid(c, c.slots[bit].value);
    case Drop(bit) => EraseValid(c, bit);
    case Add(r, p) =>
      hide Valid, Put;
      PutValid(c, r, p);
      if Put(c, r, p).Ok? {
        AddRefines(c, r, p);
        ValidSize(Put(c, r, p).value);
      }
    case Renumber => UpdateValid(c);
  }

  function Run(c: Cache, ops: seq<CacheOp>): Result<Cache> {
    if ops == [] then Ok(c)
    else
      var before :- Run(c, ops[..|ops| - 1]);
      if Callable(before, ops[|ops| - 1]) then Step(before, ops[|ops| - 1]) else Err(MissingKey)
  }

  /** The recency list after a run that was not stopped. */
  function PlainRun(c: Cache, ops: seq<CacheOp>): seq<string>
    requires Run(c, ops).Ok?
  {
    if ops == [] then c.order
    else
      var before := Run(c, ops[..|ops| - 1]).value;
      PlainStep(PlainRun(c, ops[..|ops| - 1]), c.capacity, before, ops[|ops| - 1])
  }

  /** From an empty cache on, the list is the plain one, names and bits pair up and the bound holds. */
  lemma {:induction false} RunRefines(capacity: nat, ops: seq<CacheOp>)
    requires Run(Empty(capacity), ops).Ok?
    ensures
      var d := Run(Empty(capacity), ops).value;
      && Valid(d) && d.capacity == capacity && |d.order| <= capacity
      && d.order == PlainRun(Empty(capacity), ops)
      && (ops != [] && ops[|ops| - 1].Renumber? ==> Canonical(d))
  {
    if ops != [] {
      RunRefines(capacity, ops[..|ops| - 1]);
      StepRefines(Run(Empty(capacity), ops[..|ops| - 1]).value, ops[|ops| - 1]);
    }
  }
}
