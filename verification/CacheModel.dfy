/**
  The response cache as a value: names in recency order, the entry of each name,
  and the numbering of names by cache bits.
 */
module CacheModel {
  import opened Messages
  import opened Sequences

  datatype Entry = Entry(response: Response, params: TensorParams)

  datatype Cache = Cache(
    capacity: nat,
    order: seq<string>,               // most recently used first
    store: map<string, Entry>,
    bits: map<string, nat>,           // name -> cache bit
    slots: seq<Option<string>>,       // cache bit -> name, None after an erase
    outdated: bool)

  datatype CacheState = Miss | Hit | Invalid

  ghost predicate Valid(c: Cache) {
    && |c.order| <= c.capacity
    && |c.order| <= |c.slots|
    && Distinct(c.order)
    && (forall n :: n in c.order <==> n in c.store)
    && (forall n :: n in c.store <==> n in c.bits)
    && (forall n :: n in c.bits ==> c.bits[n] < |c.slots| && c.slots[c.bits[n]] == Some(n))
    && (forall b :: 0 <= b < |c.slots| && c.slots[b].Some? ==>
      c.slots[b].value in c.bits && c.bits[c.slots[b].value] == b)
    && (forall n :: n in c.store ==> c.store[n].response.names == [n])
    && (!c.outdated ==> Canonical(c))
  }

  /** Bit b belongs to the b-th least recently used name. */
  ghost predicate Canonical(c: Cache) {
    && |c.slots| == |c.order|
    && (forall b :: 0 <= b < |c.slots| ==> c.slots[b] == Some(c.order[|c.order| - 1 - b]))
  }

  function Empty(capacity: nat): Cache {
    Cache(capacity, [], map[], map[], [], false)
  }

  function SetCapacity(c: Cache, capacity: nat): Cache {
    if capacity != c.capacity then Empty(capacity) else c
  }

  function Cached(c: Cache, name: string, p: TensorParams): CacheState {
    if name !in c.bits then Miss
    else if name in c.store && c.store[name].params == p then Hit
    else Invalid
  }

  function Touch(c: Cache, name: string): Cache {
    c.(order := [name] + Without(c.order, name), outdated := true)
  }

  /** Puts a new entry in front and files it under `bit`, an erased bit or the next free one. */
  function Insert(c: Cache, n: string, e: Entry, bit: nat): Cache {
    Cache(c.capacity, [n] + c.order, c.store[n := e], c.bits[n := bit],
          if bit < |c.slots| then c.slots[bit := Some(n)] else c.slots + [Some(n)], true)
  }

  /** Adds one single-tensor response.  At capacity the least recently used entry makes way and
      the newcomer takes over its bit. */
  function Put(c: Cache, response: Response, p: TensorParams): Result<Cache>
    requires c.capacity > 0
  {
    var n := NameOf(response);
    match Cached(c, n, p)
    case Invalid => Err(CacheConflict)
    case Hit => Ok(Touch(c, n))
    case Miss =>
      if |c.order| == c.capacity && c.order[|c.order| - 1] in c.bits then
        var bit := c.bits[c.order[|c.order| - 1]];
        if Live(c, bit) then Ok(Insert(Erase(c, bit), n, Entry(response, p), bit)) else Err(MissingKey)
      else
        Ok(Insert(c, n, Entry(response, p), |c.slots|))
  }

  /** The bit has not been erased, so its iterator can be followed. */
  predicate Live(c: Cache, bit: nat) {
    bit < |c.slots| && c.slots[bit].Some? && c.slots[bit].value in c.store
  }

  function Get(c: Cache, bit: nat): Cache
    requires Live(c, bit)
  {
    Touch(c, c.slots[bit].value)
  }

  function Peek(c: Cache, bit: nat): Response
    requires Live(c, bit)
  {
    c.store[c.slots[bit].value].response
  }

  function Erase(c: Cache, bit: nat): Cache
    requires Live(c, bit)
  {
    var n := c.slots[bit].value;
    Cache(c.capacity, Without(c.order, n), c.store - {n}, c.bits - {n}, c.slots[bit := None], true)
  }

  function UpdateBits(c: Cache): Cache {
    if !c.outdated then c
    else
      Cache(c.capacity, c.order, c.store, Renumber(c.order), Backwards(c.order), false)
  }

  function Renumber(order: seq<string>): (m: map<string, nat>)
    ensures forall n :: n in m <==> n in order
  {
    if order == [] then map[] else Renumber(order[1..])[order[0] := |order| - 1]
  }

  function Backwards(order: seq<string>): (s: seq<Option<string>>)
    ensures |s| == |order|
    ensures forall b :: 0 <= b < |s| ==> s[b] == Some(order[|order| - 1 - b])
  {
    if order == [] then [] else Backwards(order[1..]) + [Some(order[0])]
  }

  lemma {:induction false} RenumberAt(order: seq<string>, i: nat)
    requires Distinct(order) && i < |order|
    ensures Renumber(order)[order[i]] == |order| - 1 - i
  {
    if i > 0 {
      RenumberAt(order[1..], i - 1);
      assert order[1..][i - 1] == order[i];
    }
  }

  // ---------------------------------------------------------------------
  // Every operation keeps the representation invariant.
  // ---------------------------------------------------------------------

  lemma {:induction false} TouchValid(c: Cache, n: string)
    requires Valid(c) && n in c.order
    ensures Valid(Touch(c, n))
  {
    WithoutDistinct(c.order, n);
    Prepend(n, Without(c.order, n));
  }

  lemma {:induction false} EraseValid(c: Cache, bit: nat)
    requires Valid(c) && Live(c, bit)
    ensures Valid(Erase(c, bit))
  {
    WithoutDistinct(c.order, c.slots[bit].value);
  }

  lemma {:induction false} RenumberedBits(order: seq<string>, n: string)
    requires Distinct(order) && n in order
    ensures Renumber(order)[n] < |order| && Backwards(order)[Renumber(order)[n]] == Some(n)
  {
    var i :| 0 <= i < |order| && order[i] == n;
    RenumberAt(order, i);
  }

  lemma {:induction false} RenumberedSlots(order: seq<string>, b: nat)
    requires Distinct(order) && b < |order|
    ensures Backwards(order)[b].Some? && Backwards(order)[b].value in Renumber(order)
      && Renumber(order)[Backwards(order)[b].value] == b
  {
    var i := |order| - 1 - b;
    RenumberAt(order, i);
    assert Backwards(order)[b] == Some(order[i]) && order[i] in order;
  }

  lemma {:induction false} UpdateValid(c: Cache)
    requires Valid(c)
    ensures Valid(UpdateBits(c)) && Canonical(UpdateBits(c)) && !UpdateBits(c).outdated
  {
    if c.outdated {
      forall n | n in Renumber(c.order)
        ensures Renumber(c.order)[n] < |c.order| && Backwards(c.order)[Renumber(c.order)[n]] == Some(n)
      {
        RenumberedBits(c.order, n);
      }
      forall b | 0 <= b < |c.order|
        ensures Backwards(c.order)[b].Some? && Backwards(c.order)[b].value in Renumber(c.order)
          && Renumber(c.order)[Backwards(c.order)[b].value] == b
      {
        RenumberedSlots(c.order, b);
      }
    }
  }

  lemma {:induction false} InsertValid(c: Cache, n: string, e: Entry, bit: nat)
    requires Valid(c) && n !in c.bits && |c.order| < c.capacity && e.response.names == [n]
    requires bit == |c.slots| || (bit < |c.slots| && c.slots[bit] == None && |c.order| < |c.slots|)
    ensures Valid(Insert(c, n, e, bit))
  {
    Prepend(n, c.order);
  }

  lemma {:induction false} PutValid(c: Cache, r: Response, p: TensorParams)
    requires Valid(c) && c.capacity > 0 && r.names == [NameOf(r)]
    ensures Put(c, r, p).Ok? ==> Valid(Put(c, r, p).value)
    ensures Put(c, r, p).Err? <==> Cached(c, NameOf(r), p) == Invalid
  {
    var n := NameOf(r);
    match Cached(c, n, p)
    case Invalid =>
    case Hit => TouchValid(c, n);
    case Miss =>
      if |c.order| == c.capacity {
        var bit := c.bits[c.order[|c.order| - 1]];
        EraseValid(c, bit);
        WithoutDistinct(c.order, c.order[|c.order| - 1]);
        InsertValid(Erase(c, bit), n, Entry(r, p), bit);
      } else {
        InsertValid(c, n, Entry(r, p), |c.slots|);
      }
  }

  /** What adding a response comes to, case by case. */
  lemma {:induction false} PutCases(c: Cache, r: Response, p: TensorParams)
    requires c.capacity > 0
    ensures
      var n, put := NameOf(r), Put(c, r, p);
      match Cached(c, n, p)
      case Invalid => put == Err(CacheConflict)
      case Hit => put == Ok(Touch(c, n))
      case Miss =>
        && (|c.order| < c.capacity ==> put == Ok(Insert(c, n, Entry(r, p), |c.slots|)))
        && (|c.order| == c.capacity && c.order[|c.order| - 1] in c.bits && Live(c, c.bits[c.order[|c.order| - 1]]) ==>
            var bit := c.bits[c.order[|c.order| - 1]];
            put == Ok(Insert(Erase(c, bit), n, Entry(r, p), bit)))
  {
  }
}
