/**
  The response cache in place: a list of entries, a vector of iterators into it and a table from
  names to bits.  Moving an entry allocates a new list node.  A linked node never changes, so an
  iterator is represented by the node it points to; None is the past-the-end iterator of an erased bit.
 */
module ResponseCaches {
  import opened Messages
  import opened Sequences
  import opened CacheModel
  import opened Fusion
  import opened Negotiation

  datatype Node = Node(address: nat, entry: Entry)

  function NodeName(n: Node): string {
    NameOf(n.entry.response)
  }

  function NodeNames(list: seq<Node>): (names: seq<string>)
    ensures |names| == |list|
    ensures forall i :: 0 <= i < |list| ==> names[i] == NodeName(list[i])
  {
    if list == [] then [] else [NodeName(list[0])] + NodeNames(list[1..])
  }

  function NodeStore(list: seq<Node>): (m: map<string, Entry>)
    ensures forall n :: n in m <==> n in NodeNames(list)
  {
    if list == [] then map[] else NodeStore(list[1..])[NodeName(list[0]) := list[0].entry]
  }

  function SlotNames(iters: seq<Option<Node>>): (slots: seq<Option<string>>)
    ensures |slots| == |iters|
    ensures forall b :: 0 <= b < |iters| ==> slots[b] == if iters[b].None? then None else Some(NodeName(iters[b].value))
  {
    seq(|iters|, b requires 0 <= b < |iters| => if iters[b].None? then None else Some(NodeName(iters[b].value)))
  }

  /** `list` without one of its nodes. */
  function Unlink(list: seq<Node>, node: Node): seq<Node> {
    if list == [] then [] else (if list[0] == node then [] else [list[0]]) + Unlink(list[1..], node)
  }

  lemma {:induction false} StoreAt(list: seq<Node>, i: nat)
    requires Distinct(NodeNames(list)) && i < |list|
    ensures NodeStore(list)[NodeName(list[i])] == list[i].entry
  {
    if i > 0 {
      assert NodeNames(list[1..]) == NodeNames(list)[1..];
      StoreAt(list[1..], i - 1);
      assert NodeNames(list)[i] != NodeNames(list)[0];
    }
  }

  lemma {:induction false} UnlinkNames(list: seq<Node>, node: Node)
    requires Distinct(NodeNames(list)) && node in list
    ensures NodeNames(Unlink(list, node)) == Without(NodeNames(list), NodeName(node))
    ensures forall x :: x in Unlink(list, node) <==> x in list && x != node
  {
    hide NodeNames;
    var names := NodeNames(list);
    assert NodeNames(list[1..]) == names[1..];
    if list[0] == node {
      assert names[0] !in names[1..];
      WithoutAbsent(names[1..], names[0]);
      UnlinkAbsent(list[1..], node);
      assert Unlink(list, node) == list[1..];
    } else {
      var i :| 1 <= i < |list| && list[i] == node;
      assert names[0] != names[i];
      UnlinkNames(list[1..], node);
      assert Unlink(list, node) == [list[0]] + Unlink(list[1..], node);
      NamesCons(list[0], Unlink(list[1..], node));
    }
  }

  lemma {:induction false} NamesCons(node: Node, list: seq<Node>)
    ensures NodeNames([node] + list) == [NodeName(node)] + NodeNames(list)
    ensures NodeStore([node] + list) == NodeStore(list)[NodeName(node) := node.entry]
  {
    assert ([node] + list)[1..] == list;
  }

  lemma {:induction false} UnlinkAbsent(list: seq<Node>, node: Node)
    requires node !in list || NodeName(node) !in NodeNames(list)
    ensures Unlink(list, node) == list
  {
    if list != [] {
      assert NodeNames(list)[0] == NodeName(list[0]);
      assert NodeNames(list[1..]) == NodeNames(list)[1..];
      UnlinkAbsent(list[1..], node);
    }
  }

  lemma {:induction false} StoreOf(list: seq<Node>, node: Node)
    requires Distinct(NodeNames(list)) && node in list
    ensures NodeName(node) in NodeStore(list) && NodeStore(list)[NodeName(node)] == node.entry
  {
    var i :| 0 <= i < |list| && list[i] == node;
    assert NodeNames(list)[i] == NodeName(node);
    StoreAt(list, i);
  }

  lemma {:induction false} Named(list: seq<Node>, name: string) returns (node: Node)
    requires name in NodeStore(list)
    ensures node in list && NodeName(node) == name
  {
    var i :| 0 <= i < |list| && NodeNames(list)[i] == name;
    node := list[i];
  }

  lemma {:induction false} UnlinkOne(list: seq<Node>, node: Node, k: string)
    requires Distinct(NodeNames(list)) && node in list && Distinct(NodeNames(Unlink(list, node)))
    requires k in NodeStore(Unlink(list, node)) && forall x :: x in Unlink(list, node) ==> x in list
    ensures k in NodeStore(list) && NodeStore(Unlink(list, node))[k] == NodeStore(list)[k]
  {
    var x := Named(Unlink(list, node), k);
    StoreOf(Unlink(list, node), x);
    StoreOf(list, x);
  }

  lemma {:induction false} UnlinkStore(list: seq<Node>, node: Node)
    requires Distinct(NodeNames(list)) && node in list
    ensures NodeStore(Unlink(list, node)) == NodeStore(list) - {NodeName(node)}
  {
    UnlinkNames(list, node);
    WithoutDistinct(NodeNames(list), NodeName(node));
    forall k | k in NodeStore(Unlink(list, node))
      ensures k in NodeStore(list) && NodeStore(Unlink(list, node))[k] == NodeStore(list)[k]
    {
      UnlinkOne(list, node, k);
    }
    assert forall k :: k in NodeStore(Unlink(list, node)) <==> k in NodeStore(list) && k != NodeName(node);
    hide NodeStore, Unlink, Distinct, NodeNames;
    SameMap(NodeStore(Unlink(list, node)), NodeStore(list), NodeName(node));
  }

  lemma {:induction false} SameMap(small: map<string, Entry>, large: map<string, Entry>, gone: string)
    requires forall k :: k in small <==> k in large && k != gone
    requires forall k :: k in small ==> small[k] == large[k]
    ensures small == large - {gone}
  {
  }

  lemma {:induction false} LastDiffers(list: seq<Node>)
    requires Distinct(NodeNames(list)) && |list| > 1
    ensures list[0] != list[|list| - 1] && Distinct(NodeNames(list[1..]))
  {
    assert NodeNames(list[1..]) == NodeNames(list)[1..];
    assert NodeNames(list)[0] != NodeNames(list)[|list| - 1];
  }

  lemma {:induction false} UnlinkLast(list: seq<Node>)
    requires Distinct(NodeNames(list)) && list != []
    ensures Unlink(list, list[|list| - 1]) == list[..|list| - 1]
  {
    var node, rest := list[|list| - 1], list[1..];
    if |list| > 1 {
      LastDiffers(list);
      hide NodeNames, Distinct;
      UnlinkLast(rest);
      assert list[..|list| - 1] == [list[0]] + rest[..|rest| - 1];
    } else {
      assert rest == [] && Unlink(rest, node) == [];
    }
  }

  lemma {:induction false} Reinsert<V>(m: map<string, V>, n: string)
    requires n in m
    ensures (m - {n})[n := m[n]] == m
  {
  }

  /** Replacing a node by a copy at the front keeps every name's entry. */
  lemma {:induction false} MovedStore(list: seq<Node>, it: Node, front: Node)
    requires Distinct(NodeNames(list)) && it in list && front.entry == it.entry
    ensures NodeStore([front] + Unlink(list, it)) == NodeStore(list)
  {
    UnlinkStore(list, it);
    NamesCons(front, Unlink(list, it));
    StoreOf(list, it);
    Reinsert(NodeStore(list), NodeName(it));
  }

  lemma {:induction false} MovedNames(list: seq<Node>, it: Node, front: Node)
    requires Distinct(NodeNames(list)) && it in list && front.entry == it.entry
    ensures NodeNames([front] + Unlink(list, it)) == [NodeName(it)] + Without(NodeNames(list), NodeName(it))
  {
    UnlinkNames(list, it);
    NamesCons(front, Unlink(list, it));
  }

  /** Two iterators to nodes of the same name belong to the same bit. */
  ghost predicate OneBitEach(iters: seq<Option<Node>>) {
    forall a, b :: 0 <= a < b < |iters| && iters[a].Some? && iters[b].Some? ==>
      NodeName(iters[a].value) != NodeName(iters[b].value)
  }

  lemma {:induction false} ValidOneBit(c: Cache, iters: seq<Option<Node>>)
    requires CacheModel.Valid(c) && c.slots == SlotNames(iters)
    ensures OneBitEach(iters)
  {
    forall a, b | 0 <= a < b < |iters| && iters[a].Some? && iters[b].Some?
      ensures NodeName(iters[a].value) != NodeName(iters[b].value)
    {
      assert c.slots[a] == Some(NodeName(iters[a].value)) && c.slots[b] == Some(NodeName(iters[b].value));
    }
  }

  ghost predicate Linked(iters: seq<Option<Node>>, list: seq<Node>) {
    forall b :: 0 <= b < |iters| && iters[b].Some? ==> iters[b].value in list
  }

  /** Live iterators stay valid when one entry is moved to a new node. */
  lemma {:induction false} MovedIters(list: seq<Node>, iters: seq<Option<Node>>, bit: nat, front: Node)
    requires Distinct(NodeNames(list)) && Linked(iters, list) && OneBitEach(iters)
    requires bit < |iters| && iters[bit].Some? && NodeName(front) == NodeName(iters[bit].value)
    ensures Linked(iters[bit := Some(front)], [front] + Unlink(list, iters[bit].value))
    ensures SlotNames(iters[bit := Some(front)]) == SlotNames(iters)
  {
    UnlinkNames(list, iters[bit].value);
  }

  // ---------------------------------------------------------------------
  // Representation
  // ---------------------------------------------------------------------

  /** The list, the iterators and the value `c` describe the same cache. */
  ghost predicate Represents(c: Cache, list: seq<Node>, iters: seq<Option<Node>>) {
    && Valid(c) && Linked(iters, list)
    && c.order == NodeNames(list) && c.store == NodeStore(list) && c.slots == SlotNames(iters)
  }

  /** The iterator filed under a cached name leads to that name's entry. */
  lemma {:induction false} NameLeads(c: Cache, list: seq<Node>, iters: seq<Option<Node>>, name: string)
    requires Represents(c, list, iters) && name in c.bits
    ensures
      var b := c.bits[name];
      b < |iters| && iters[b].Some? && iters[b].value in list && NodeName(iters[b].value) == name
        && c.store[name] == iters[b].value.entry
  {
    var b := c.bits[name];
    assert SlotNames(iters)[b] == Some(name);
    StoreOf(list, iters[b].value);
  }

  lemma {:induction false} BitLeads(c: Cache, list: seq<Node>, iters: seq<Option<Node>>, bit: nat)
    requires Represents(c, list, iters) && Live(c, bit)
    ensures bit < |iters| && iters[bit].Some? && iters[bit].value in list
    ensures c.slots[bit] == Some(NodeName(iters[bit].value)) && Peek(c, bit) == iters[bit].value.entry.response
    ensures c.bits[NodeName(iters[bit].value)] == bit
  {
    StoreOf(list, iters[bit].value);
  }

  lemma {:induction false} Moved(c: Cache, list: seq<Node>, iters: seq<Option<Node>>, bit: nat, front: Node)
    requires Represents(c, list, iters) && Live(c, bit) && iters[bit].Some? && front.entry == iters[bit].value.entry
    ensures Represents(Get(c, bit), [front] + Unlink(list, iters[bit].value), iters[bit := Some(front)])
  {
    BitLeads(c, list, iters, bit);
    TouchValid(c, NodeName(iters[bit].value));
    ValidOneBit(c, iters);
    MovedStore(list, iters[bit].value, front);
    MovedNames(list, iters[bit].value, front);
    MovedIters(list, iters, bit, front);
  }

  lemma {:induction false} ErasedIters(list: seq<Node>, iters: seq<Option<Node>>, bit: nat)
    requires Distinct(NodeNames(list)) && Linked(iters, list) && OneBitEach(iters)
    requires bit < |iters| && iters[bit].Some?
    ensures Linked(iters[bit := None], Unlink(list, iters[bit].value))
    ensures SlotNames(iters[bit := None]) == SlotNames(iters)[bit := None]
  {
    UnlinkNames(list, iters[bit].value);
  }

  lemma {:induction false} Erased(c: Cache, list: seq<Node>, iters: seq<Option<Node>>, bit: nat)
    requires Represents(c, list, iters) && Live(c, bit) && iters[bit].Some?
    ensures Represents(Erase(c, bit), Unlink(list, iters[bit].value), iters[bit := None])
  {
    BitLeads(c, list, iters, bit);
    EraseValid(c, bit);
    ValidOneBit(c, iters);
    UnlinkNames(list, iters[bit].value);
    UnlinkStore(list, iters[bit].value);
    ErasedIters(list, iters, bit);
  }

  lemma {:induction false} InsertedIters(list: seq<Node>, iters: seq<Option<Node>>, bit: nat, front: Node)
    requires Linked(iters, list) && bit <= |iters|
    ensures
      var more := if bit < |iters| then iters else iters + [None];
      && Linked(more[bit := Some(front)], [front] + list)
      && SlotNames(more[bit := Some(front)]) == if bit < |iters| then SlotNames(iters)[bit := Some(NodeName(front))]
        else SlotNames(iters) + [Some(NodeName(front))]
  {
  }

  lemma {:induction false} Inserted(c: Cache, list: seq<Node>, iters: seq<Option<Node>>, bit: nat, front: Node)
    requires Represents(c, list, iters) && bit <= |iters|
    requires Valid(Insert(c, NodeName(front), front.entry, bit))
    ensures Represents(Insert(c, NodeName(front), front.entry, bit), [front] + list,
      (if bit < |iters| then iters else iters + [None])[bit := Some(front)])
  {
    NamesCons(front, list);
    InsertedIters(list, iters, bit, front);
  }

  lemma {:induction false} EmptyRepresented(capacity: nat)
    ensures Represents(Empty(capacity), [], [])
  {
  }

  /** The entry at the back is the one its name's iterator leads to. */
  lemma {:induction false} BackLeads(c: Cache, list: seq<Node>, iters: seq<Option<Node>>)
    requires Represents(c, list, iters) && list != []
    ensures
      var last := list[|list| - 1];
      && NodeName(last) == c.order[|c.order| - 1] && NodeName(last) in c.bits && Live(c, c.bits[NodeName(last)])
      && c.bits[NodeName(last)] < |iters| && iters[c.bits[NodeName(last)]] == Some(last)
  {
    var last := list[|list| - 1];
    assert c.order[|list| - 1] == NodeName(last);
    NameLeads(c, list, iters, NodeName(last));
    var i :| 0 <= i < |list| && list[i] == iters[c.bits[NodeName(last)]].value;
    assert NodeNames(list)[i] == NodeNames(list)[|list| - 1];
  }

  lemma {:induction false} Refiled<T>(s: seq<T>, i: nat, x: T, y: T)
    requires i < |s|
    ensures s[i := x][i := y] == s[i := y]
  {
  }

  lemma {:induction false} Appended<T>(s: seq<T>, x: T, y: T)
    ensures (s + [x])[|s| := y] == s + [y]
  {
  }

  lemma {:induction false} EvictedValid(c: Cache, last: string, name: string, e: Entry)
    requires Valid(c) && last in c.order && name !in c.bits && e.response.names == [name] && last in c.bits
    ensures Live(c, c.bits[last]) && Valid(Insert(Erase(c, c.bits[last]), name, e, c.bits[last]))
  {
    var bit := c.bits[last];
    EraseValid(c, bit);
    WithoutDistinct(c.order, last);
    InsertValid(Erase(c, bit), name, e, bit);
  }

  /** The newcomer takes the place, and the bit, of the entry at the back. */
  lemma {:induction false} Replaced(c: Cache, list: seq<Node>, iters: seq<Option<Node>>, front: Node)
    requires Represents(c, list, iters) && list != [] && front.entry.response.names == [NodeName(front)]
      && NodeName(front) !in c.bits
    ensures
      var last := c.order[|c.order| - 1];
      && last in c.bits && Live(c, c.bits[last]) && c.bits[last] < |iters|
      && Represents(Insert(Erase(c, c.bits[last]), NodeName(front), front.entry, c.bits[last]),
                    [front] + list[..|list| - 1], iters[c.bits[last] := Some(front)])
      && Insert(Erase(c, c.bits[last]), NodeName(front), front.entry, c.bits[last]).bits
        == (c.bits - {last})[NodeName(front) := c.bits[last]]
      && Erase(c, c.bits[last]).capacity == c.capacity
  {
    BackLeads(c, list, iters);
    var last := list[|list| - 1];
    var bit := c.bits[NodeName(last)];
    Erased(c, list, iters, bit);
    UnlinkLast(list);
    var d := Erase(c, bit);
    assert c.slots[bit] == Some(NodeName(last));
    EvictedValid(c, NodeName(last), NodeName(front), front.entry);
    hide Represents, Valid, NodeNames, SlotNames, NodeStore;
    Refiled(iters, bit, None, Some(front));
    Inserted(d, list[..|list| - 1], iters[bit := None], bit, front);
  }

  lemma {:induction false} Added(c: Cache, list: seq<Node>, iters: seq<Option<Node>>, front: Node)
    requires Represents(c, list, iters) && |list| < c.capacity
    requires front.entry.response.names == [NodeName(front)] && NodeName(front) !in c.bits
    ensures Represents(Insert(c, NodeName(front), front.entry, |c.slots|), [front] + list, iters + [Some(front)])
  {
    Shape(c, list, iters);
    assert Valid(c);
    hide Represents, Valid, NodeNames, SlotNames, NodeStore;
    InsertValid(c, NodeName(front), front.entry, |c.slots|);
    Appended(iters, None, Some(front));
    Inserted(c, list, iters, |c.slots|, front);
  }

  /** The last `i` names, counted from the back, have their new bits. */
  ghost predicate Assigned(bits: map<string, nat>, names: seq<string>, i: nat) {
    && i <= |names| && (forall n :: n in bits <==> n in names)
    && forall j :: |names| - i <= j < |names| ==> names[j] in bits && bits[names[j]] == |names| - 1 - j
  }

  lemma {:induction false} AssignNone(bits: map<string, nat>, names: seq<string>, iters: seq<Option<Node>>,
      list: seq<Node>)
    requires (forall n :: n in bits <==> n in names) && |list| <= |iters|
    ensures Assigned(bits, names, 0) && Redirected(iters, list, 0)
  {
  }

  lemma {:induction false} AssignNext(bits: map<string, nat>, names: seq<string>, i: nat)
    requires Assigned(bits, names, i) && Distinct(names) && i < |names|
    ensures Assigned(bits[names[|names| - 1 - i] := i], names, i + 1)
  {
  }

  lemma {:induction false} AssignedAll(bits: map<string, nat>, names: seq<string>)
    requires Assigned(bits, names, |names|) && Distinct(names)
    ensures bits == Renumber(names)
  {
    forall n | n in bits ensures n in Renumber(names) && bits[n] == Renumber(names)[n] {
      var i :| 0 <= i < |names| && names[i] == n;
      RenumberAt(names, i);
    }
  }

  /** The first `i` bits lead to the last `i` nodes, the last one first. */
  ghost predicate Redirected(iters: seq<Option<Node>>, list: seq<Node>, i: nat) {
    i <= |list| <= |iters| && forall k :: 0 <= k < i ==> iters[k] == Some(list[|list| - 1 - k])
  }

  lemma {:induction false} RedirectNext(iters: seq<Option<Node>>, list: seq<Node>, i: nat)
    requires Redirected(iters, list, i) && i < |list|
    ensures Redirected(iters[i := Some(list[|list| - 1 - i])], list, i + 1)
  {
  }

  lemma {:induction false} BackwardsNode(iters: seq<Option<Node>>, list: seq<Node>, k: nat, node: Node)
    requires k < |list| <= |iters| && iters[k] == Some(node) && node == list[|list| - 1 - k]
    ensures Backwards(NodeNames(list))[k] == Some(NodeName(node))
  {
    hide Backwards, NodeNames;
    var names := NodeNames(list);
    assert Backwards(names)[k] == Some(names[|names| - 1 - k]);
  }

  lemma {:induction false} RedirectedAll(iters: seq<Option<Node>>, list: seq<Node>)
    requires Redirected(iters, list, |list|)
    ensures Linked(iters[..|list|], list) && SlotNames(iters[..|list|]) == Backwards(NodeNames(list))
  {
    hide Backwards, NodeNames, SlotNames;
    var part := iters[..|list|];
    forall k: nat | k < |list|
      ensures part[k].Some? && part[k].value in list && SlotNames(part)[k] == Backwards(NodeNames(list))[k]
    {
      assert part[k] == iters[k] == Some(list[|list| - 1 - k]);
      BackwardsNode(iters, list, k, list[|list| - 1 - k]);
    }
  }

  lemma {:induction false} Renumbered(c: Cache, list: seq<Node>, was: seq<Option<Node>>, bits: map<string, nat>,
      iters: seq<Option<Node>>)
    requires Represents(c, list, was) && c.outdated && Assigned(bits, c.order, |c.order|)
      && Redirected(iters, list, |list|)
    ensures Represents(UpdateBits(c), list, iters[..|list|]) && bits == UpdateBits(c).bits
  {
    AssignedAll(bits, c.order);
    RedirectedAll(iters, list);
    UpdateValid(c);
  }

  lemma {:induction false} Shape(c: Cache, list: seq<Node>, iters: seq<Option<Node>>)
    requires Represents(c, list, iters)
    ensures |list| == |c.order| <= |iters| == |c.slots| && |list| <= c.capacity && c.order == NodeNames(list)
    ensures Distinct(c.order) && forall n :: n in c.order <==> n in c.bits
  {
  }

  lemma {:induction false} HitLeads(c: Cache, list: seq<Node>, iters: seq<Option<Node>>, name: string, p: TensorParams)
    requires Represents(c, list, iters) && CacheModel.Cached(c, name, p) == Hit
    ensures Live(c, c.bits[name]) && c.slots[c.bits[name]] == Some(name) && c.bits[name] < |iters|
      && iters[c.bits[name]].Some?
  {
    NameLeads(c, list, iters, name);
  }

  lemma {:induction false} PutAllOff(c: Cache, rs: seq<Response>, t: Table)
    requires c.capacity == 0
    ensures PutAll(c, rs, t) == Ok(c)
  {
    if rs != [] { PutAllOff(c, rs[..|rs| - 1], t); }
  }

  lemma {:induction false} UnfusePieces(r: Response)
    requires r.names != []
    ensures Unfuse(r) == Pieces(r, |r.names|)
  {
    if |r.names| == 1 { assert r.names == [r.names[0]]; assert Pieces(r, 0) == []; }
  }

  lemma {:induction false} PutAllNone(c: Cache, r: Response, t: Table)
    ensures PutAll(c, Pieces(r, 0), t) == Ok(c)
  {
  }

  lemma {:induction false} PutAllNext(c: Cache, r: Response, t: Table, k: nat)
    requires k < |r.names|
    ensures
      var before := PutAll(c, Pieces(r, k), t);
      PutAll(c, Pieces(r, k + 1), t) == if before.Err? then Err(before.fault)
        else PutOne(before.value, r.(names := [r.names[k]]), t)
  {
    hide PutOne;
    assert Pieces(r, k + 1)[..k] == Pieces(r, k);
  }

  lemma {:induction false} PutAllStops(c: Cache, r: Response, t: Table, k: nat, n: nat)
    requires k <= n <= |r.names| && PutAll(c, Pieces(r, k), t).Err?
    ensures PutAll(c, Pieces(r, n), t).Err?
  {
    hide PutOne, PutAll, Pieces;
    if k < n {
      PutAllStops(c, r, t, k, n - 1);
      PutAllNext(c, r, t, n - 1);
    }
  }

  class ResponseCache {
    ghost var model: Cache           // the cache as a value

    var capacity: nat
    var list: seq<Node>              // most recently used first
    var iters: seq<Option<Node>>            // cache bit -> node
    var nameToBit: map<string, nat>
    var outdated: bool
    var nextAddress: nat             // where the next list node goes

    ghost predicate Valid()
      reads this
    {
      && model.capacity == capacity && model.bits == nameToBit && model.outdated == outdated
      && Represents(model, list, iters)
    }

    constructor ()
      ensures Valid() && model == Empty(0)
    {
      capacity, list, iters, nameToBit, outdated, nextAddress := 0, [], [], map[], false, 0;
      model := Empty(0);
    }

    method SetCapacity(capacity: nat)
      requires Valid()
      modifies this
      ensures Valid() && model == CacheModel.SetCapacity(old(model), capacity)
    {
      hide Represents;
      EmptyRepresented(capacity);
      if capacity != this.capacity {
        outdated, list, iters, nameToBit := false, [], [], map[];
        this.capacity := capacity;
        model := Empty(capacity);
      }
    }

    /** Whether a tensor of that name is cached, and as it is now. */
    method Cached(name: string, p: TensorParams) returns (state: CacheState)
      requires Valid()
      ensures state == CacheModel.Cached(model, name, p)
    {
      if name in nameToBit {
        NameLeads(model, list, iters, name);
        state := if iters[nameToBit[name]].value.entry.params == p then Hit else Invalid;
      } else {
        state := Miss;
      }
    }

    method PeekResponse(bit: nat) returns (r: Response)
      requires Valid() && Live(model, bit)
      ensures r == Peek(model, bit)
    {
      BitLeads(model, list, iters, bit);
      r := iters[bit].value.entry.response;
    }

    method PeekCacheBit(name: string) returns (bit: nat)
      requires Valid() && name in model.bits
      ensures bit == model.bits[name]
    {
      bit := nameToBit[name];
    }

    /** Moves the entry behind a bit to the front of the list and returns its response. */
    method GetResponse(bit: nat) returns (r: Response)
      requires Valid() && Live(model, bit)
      modifies this
      ensures Valid() && model == Get(old(model), bit) && r == Peek(old(model), bit)
    {
      hide Represents;
      BitLeads(model, list, iters, bit);
      var it := iters[bit].value;
      var front := Node(nextAddress, it.entry);
      nextAddress := nextAddress + 1;
      Moved(model, list, iters, bit, front);
      list := [front] + Unlink(list, it);
      iters := iters[bit := Some(front)];
      outdated := true;
      model := Get(model, bit);
      r := list[0].entry.response;
    }

    /** Drops an entry; its bit stays unused until the bits are renumbered. */
    method EraseResponse(bit: nat)
      requires Valid() && Live(model, bit)
      modifies this
      ensures Valid() && model == Erase(old(model), bit)
    {
      hide Represents;
      BitLeads(model, list, iters, bit);
      var it := iters[bit].value;
      Erased(model, list, iters, bit);
      nameToBit := nameToBit - {NodeName(it)};
      list := Unlink(list, it);
      iters := iters[bit := None];
      outdated := true;
      model := Erase(model, bit);
    }

    /** Moves the entry of a name to the front; its bit now leads there. */
    method MoveToFront(name: string)
      requires Valid() && name in nameToBit && Live(model, nameToBit[name])
        && model.slots[nameToBit[name]] == Some(name)
      requires nameToBit[name] < |iters| && iters[nameToBit[name]].Some?
      modifies this
      ensures Valid() && capacity == old(capacity) && model == Touch(old(model), name)
    {
      hide Represents;
      var bit := nameToBit[name];
      var it := iters[bit].value;
      var front := Node(nextAddress, it.entry);
      Moved(model, list, iters, bit, front);
      list := [front] + Unlink(list, it);
      iters := iters[bit := Some(front)];
      model := Touch(model, name);
      nextAddress := nextAddress + 1;
      outdated := true;
    }

    /** Puts an entry in the place of the least recently used one, and under its bit. */
    method ReplaceLast(name: string, e: Entry)
      requires Valid() && list != [] && e.response.names == [name] && name !in model.bits
      modifies this
      ensures Valid() && capacity == old(capacity)
      ensures
        var c := old(model);
        && c.order != [] && c.order[|c.order| - 1] in c.bits && Live(c, c.bits[c.order[|c.order| - 1]])
        && model == Insert(Erase(c, c.bits[c.order[|c.order| - 1]]), name, e, c.bits[c.order[|c.order| - 1]])
    {
      hide Represents, Erase, NodeNames, Distinct;
      Shape(model, list, iters);
      var front := Node(nextAddress, e);
      var last := NodeName(list[|list| - 1]);
      BackLeads(model, list, iters);
      Replaced(model, list, iters, front);
      var bit := nameToBit[last];
      nameToBit := (nameToBit - {last})[name := bit];
      list := [front] + list[..|list| - 1];
      iters := iters[bit := Some(front)];
      model := Insert(Erase(model, bit), name, front.entry, bit);
      nextAddress := nextAddress + 1;
      outdated := true;
    }

    /** Puts an entry in front, under a new bit. */
    method Append(name: string, e: Entry)
      requires Valid() && |list| < capacity && e.response.names == [name] && name !in model.bits
      modifies this
      ensures Valid() && capacity == old(capacity) && model == Insert(old(model), name, e, |old(model).slots|)
    {
      hide Represents;
      Shape(model, list, iters);
      var front := Node(nextAddress, e);
      Added(model, list, iters, front);
      nameToBit := nameToBit[name := |iters|];
      list := [front] + list;
      iters := iters + [Some(front)];
      model := Insert(model, name, front.entry, |model.slots|);
      nextAddress := nextAddress + 1;
      outdated := true;
    }

    /** Adds a single-tensor response as the most recently used entry; refuses a name cached with other attributes. */
    method PutSingle(response: Response, p: TensorParams) returns (ok: bool)
      requires Valid() && model.capacity > 0 && response.names == [NameOf(response)]
      modifies this
      ensures Valid() && capacity == old(capacity) && ok == CacheModel.Put(old(model), response, p).Ok?
      ensures model == if ok then CacheModel.Put(old(model), response, p).value else old(model)
    {
      hide Represents, CacheModel.Put, Erase, Insert, Touch, NodeNames, Distinct;
      PutCases(model, response, p);
      var state := Cached(response.names[0], p);
      if state == Invalid { return false; }
      var name := response.names[0];
      Shape(model, list, iters);
      if state == Hit {
        HitLeads(model, list, iters, name, p);
        MoveToFront(name);
      } else if |list| == capacity {
        ReplaceLast(name, Entry(response, p));
      } else {
        Append(name, Entry(response, p));
      }
      ok := true;
    }

    /** Adds the tensors of a response, one by one if it is fused, as they are in the tensor table. */
    method Put(response: Response, t: Table) returns (ok: bool)
      requires Valid() && response.names != []
      modifies this
      ensures Valid() && ok == PutAll(old(model), Unfuse(response), t).Ok?
      ensures ok ==> model == PutAll(old(model), Unfuse(response), t).value
    {
      hide Represents, PutAll, Pieces, CacheModel.Put;
      if capacity == 0 {
        PutAllOff(model, Unfuse(response), t);
        return true;
      }
      PutAllNone(model, response, t);
      var i := 0;
      ok := true;
      while i < |response.names|
        invariant i <= |response.names| && Valid() && capacity > 0
        invariant PutAll(old(model), Pieces(response, i), t) == Ok(model)
      {
        var one := response.(names := [response.names[i]]);
        PutAllNext(old(model), response, t, i);
        if response.names[i] in t {
          ok := PutSingle(one, t[response.names[i]]);
        } else {
          ok := false;
        }
        if !ok {
          PutAllStops(old(model), response, t, i + 1, |response.names|);
          UnfusePieces(response);
          return;
        }
        i := i + 1;
      }
      UnfusePieces(response);
    }

    /** Renumbers the bits by recency, the least recently used entry first, and closes the holes. */
    method UpdateCacheBits()
      requires Valid()
      modifies this
      ensures Valid() && model == UpdateBits(old(model))
    {
      hide Represents, Assigned, Redirected, NodeNames;
      if !outdated { return; }
      Shape(model, list, iters);
      AssignNone(nameToBit, model.order, iters, list);
      ghost var c, was := model, iters;
      var i := 0;
      while i < |list|
        modifies this`iters, this`nameToBit
        invariant |list| <= |iters| && i <= |list| == |c.order| && Distinct(c.order) && c.order == NodeNames(list)
        invariant Assigned(nameToBit, c.order, i) && Redirected(iters, list, i)
      {
        AssignNext(nameToBit, c.order, i);
        RedirectNext(iters, list, i);
        var node := list[|list| - 1 - i];
        assert c.order[|list| - 1 - i] == NodeName(node);
        iters := iters[i := Some(node)];
        nameToBit := nameToBit[NodeName(node) := i];
        i := i + 1;
      }
      Renumbered(c, list, was, nameToBit, iters);
      iters := iters[..|list|];
      outdated := false;
      model := UpdateBits(c);
    }
  }
}
