/** What is in the cache after a cycle: the reductions just agreed on come first, the latest ones foremost. */
module CachingProofs {
  import opened Messages
  import opened Sequences
  import opened CacheModel
  import CacheRuns
  import opened Fusion
  import opened Negotiation
  import opened PutProofs

  /** The tensors of reductions that all `size` ranks take part in, in the order of the list. */
  function Reductions(list: seq<Response>, size: nat): seq<string> {
    if list == [] then []
    else
      var r := list[|list| - 1];
      Reductions(list[..|list| - 1], size)
      + (if (r.kind == Perform(Allreduce) || r.kind == Perform(Adasum)) && |r.devices| == size then r.names else [])
  }

  function Backward(names: seq<string>): (r: seq<string>)
    ensures |r| == |names| && forall i :: 0 <= i < |r| ==> r[i] == names[|names| - 1 - i]
  {
    seq(|names|, i requires 0 <= i < |names| => names[|names| - 1 - i])
  }

  function WithoutAll(past: seq<string>, names: seq<string>): seq<string> {
    if names == [] then past else Without(WithoutAll(past, names[..|names| - 1]), names[|names| - 1])
  }

  function Cut(names: seq<string>, capacity: nat): seq<string> {
    if |names| > capacity then names[..capacity] else names
  }

  // ---------------------------------------------------------------------
  // Sequences without repetitions
  // ---------------------------------------------------------------------

  lemma {:induction false} WithoutCut(s: seq<string>, n: string, k: nat)
    requires Distinct(s) && k > 0
    ensures Cut(Without(Cut(s, k), n), k - 1) == Cut(Without(s, n), k - 1)
  {
    if |s| > k {
      if n == s[0] {
        WithoutHead(s);
        WithoutHead(s[..k]);
        assert s[..k][1..] == s[1..][..k - 1];
      } else if k == 1 {
      } else {
        WithoutTail(s, n);
        WithoutTail(s[..k], n);
        assert s[..k][1..] == s[1..][..k - 1];
        WithoutCut(s[1..], n, k - 1);
        var a, b := Without(s[1..][..k - 1], n), Without(s[1..], n);
        CutHead(s[0], a, k - 1);
        CutHead(s[0], b, k - 1);
      }
    }
  }

  lemma {:induction false} WithoutHead(s: seq<string>)
    requires Distinct(s) && s != []
    ensures Without(s, s[0]) == s[1..]
  {
    assert s[0] !in s[1..];
    WithoutAbsent(s[1..], s[0]);
  }

  lemma {:induction false} WithoutTail(s: seq<string>, n: string)
    requires s != [] && s[0] != n
    ensures Without(s, n) == [s[0]] + Without(s[1..], n)
  {
  }

  lemma {:induction false} CutHead(n: string, s: seq<string>, k: nat)
    requires k > 0
    ensures Cut([n] + s, k) == [n] + Cut(s, k - 1)
  {
  }

  lemma {:induction false} WithoutJoined(a: seq<string>, b: seq<string>, n: string)
    requires n !in a
    ensures Without(a + b, n) == a + Without(b, n)
  {
    if a == [] {
      assert a + b == b;
    } else {
      assert (a + b)[1..] == a[1..] + b;
      WithoutJoined(a[1..], b, n);
    }
  }

  lemma {:induction false} WithoutAllDistinct(past: seq<string>, names: seq<string>)
    requires Distinct(past)
    ensures Distinct(WithoutAll(past, names))
    ensures forall n :: n in WithoutAll(past, names) <==> n in past && n !in names
  {
    if names != [] {
      WithoutAllDistinct(past, names[..|names| - 1]);
      WithoutDistinct(WithoutAll(past, names[..|names| - 1]), names[|names| - 1]);
      assert names == names[..|names| - 1] + [names[|names| - 1]];
    }
  }

  lemma {:induction false} BackwardNext(names: seq<string>, n: string)
    ensures Backward(names + [n]) == [n] + Backward(names)
  {
  }

  lemma {:induction false} LatestDistinct(past: seq<string>, names: seq<string>)
    requires Distinct(past) && Distinct(names)
    ensures Distinct(Backward(names) + WithoutAll(past, names))
  {
    WithoutAllDistinct(past, names);
    var a, b := Backward(names), WithoutAll(past, names);
    forall i, j | 0 <= i < j < |a + b| ensures (a + b)[i] != (a + b)[j] {
      if i < |a| && |a| <= j { assert a[i] in names && (a + b)[j] in b; }
    }
  }

  /** The recency list after `names` have been used in this order. */
  function Latest(past: seq<string>, names: seq<string>, capacity: nat): seq<string> {
    Cut(Backward(names) + WithoutAll(past, names), capacity)
  }

  lemma {:induction false} LatestNext(past: seq<string>, names: seq<string>, n: string, capacity: nat)
    requires Distinct(past) && Distinct(names + [n]) && capacity > 0
    ensures Latest(past, names + [n], capacity) == Cut([n] + Without(Latest(past, names, capacity), n), capacity)
  {
    var a, b := Backward(names), WithoutAll(past, names);
    assert (names + [n])[..|names|] == names;
    assert Distinct(names) by { DropLast(names + [n]); }
    assert n !in names by { assert forall i :: 0 <= i < |names| ==> (names + [n])[i] != (names + [n])[|names|]; }
    LatestDistinct(past, names);
    WithoutJoined(a, b, n);
    BackwardNext(names, n);
    assert [n] + a + Without(b, n) == [n] + (a + Without(b, n));
    WithoutCut(a + b, n, capacity);
    CutHead(n, Without(a + b, n), capacity);
    CutHead(n, Without(Cut(a + b, capacity), n), capacity);
  }

  // ---------------------------------------------------------------------
  // What is put
  // ---------------------------------------------------------------------

  /** A response is the part of some response of the list for one of its tensors. */
  ghost predicate PartOf(list: seq<Response>, p: Response) {
    exists r :: r in list && p == r.(names := [NameOf(p)])
  }

  lemma {:induction false} PartsFront(list: seq<Response>, p: Response)
    requires list != [] && (PartOf(list[..|list| - 1], p) || p == list[|list| - 1].(names := [NameOf(p)]))
    ensures PartOf(list, p)
  {
    if PartOf(list[..|list| - 1], p) {
      var r :| r in list[..|list| - 1] && p == r.(names := [NameOf(p)]);
      assert r in list;
    } else {
      assert list[|list| - 1] in list;
    }
  }

  lemma {:induction false} SinglesJoined(a: seq<Response>, b: seq<Response>)
    requires Singles(a) && Singles(b)
    ensures Singles(a + b)
  {
  }

  /** Splitting up the list gives one response for each reduced tensor, as the tensor's own. */
  lemma {:induction false} PutsAre(list: seq<Response>, size: nat)
    requires forall r :: r in list ==> r.names != []
    ensures Singles(ToCache(list, size)) && AllNames(ToCache(list, size)) == Reductions(list, size)
    ensures forall p :: p in ToCache(list, size) ==> PartOf(list, p)
  {
    if list != [] {
      var front, r := list[..|list| - 1], list[|list| - 1];
      PutsAre(front, size);
      UnfuseNames(r);
      UnfuseSingles(r);
      var a, b := ToCache(front, size), Unfuse(r);
      AllNamesAppend(a, b);
      SinglesJoined(a, b);
      assert ToCache(list, size) == a + (if Cacheable(r, size) then b else []);
      assert a + [] == a;
      assert Reductions(front, size) + [] == Reductions(front, size);
      hide ToCache, Singles, AllNames, Unfuse, PartOf;
      forall p | p in a + b ensures PartOf(list, p) { PartsFront(list, p); }
    }
  }

  lemma {:induction false} UnfuseSingles(r: Response)
    requires r.names != []
    ensures Singles(Unfuse(r)) && forall p :: p in Unfuse(r) ==> p == r.(names := [NameOf(p)])
  {
    if |r.names| == 1 { assert r.names == [r.names[0]]; }
  }

  /** The entry of a tensor that was put: its attributes in the table, and its response unless it was cached before. */
  ghost predicate Stored(c: Cache, d: Cache, r: Response, t: Table) {
    var n := NameOf(r);
    n in d.store ==>
      && n in t && d.store[n].params == t[n]
      && (d.store[n].response == r || (n in c.store && d.store[n].response == c.store[n].response))
  }

  lemma {:induction false} PutOneStores(c: Cache, r: Response, t: Table)
    requires Valid(c) && c.capacity > 0 && r.names == [NameOf(r)] && PutOne(c, r, t).Ok?
    ensures
      var d, n := PutOne(c, r, t).value, NameOf(r);
      && Valid(d) && d.capacity == c.capacity && d.order == Cut([n] + Without(c.order, n), c.capacity)
      && Stored(c, d, r, t)
      && forall k :: k in d.store && k != n ==> k in c.store && d.store[k] == c.store[k]
  {
    var p := t[NameOf(r)];
    PutValid(c, r, p);
    CacheRuns.AddRefines(c, r, p);
    PutEntries(c, r, p);
  }

  lemma {:induction false} PutEntries(c: Cache, r: Response, p: TensorParams)
    requires Valid(c) && c.capacity > 0 && Put(c, r, p).Ok?
    ensures
      var d, n := Put(c, r, p).value, NameOf(r);
      && n in d.store && d.store[n].params == p
      && (d.store[n].response == r || (n in c.store && d.store[n].response == c.store[n].response))
      && forall k :: k in d.store && k != n ==> k in c.store && d.store[k] == c.store[k]
  {
    if Cached(c, NameOf(r), p) == Miss { EvictedEntries(c); }
  }

  lemma {:induction false} EvictedEntries(c: Cache)
    requires Valid(c)
    ensures
      |c.order| > 0 ==>
        var last := c.order[|c.order| - 1];
        && last in c.bits && Live(c, c.bits[last])
        && forall k :: k in Erase(c, c.bits[last]).store ==>
          k in c.store && Erase(c, c.bits[last]).store[k] == c.store[k]
  {
  }

  /** What a cache has become by puts. */
  ghost predicate Filled(c: Cache, d: Cache, rs: seq<Response>, names: seq<string>, t: Table) {
    && Valid(d) && d.capacity == c.capacity && d.order == Latest(c.order, names, c.capacity)
    && (forall r :: r in rs ==> Stored(c, d, r, t))
    && forall n :: n in d.store && n !in names ==> n in c.store && d.store[n] == c.store[n]
  }

  lemma {:induction false} FilledNone(c: Cache, t: Table)
    requires Valid(c)
    ensures Filled(c, c, [], [], t)
  {
    assert Backward([]) + c.order == c.order;
  }

  lemma {:induction false} FilledNext(c: Cache, b: Cache, d: Cache, front: seq<Response>, r: Response,
      names: seq<string>, t: Table)
    requires Valid(c) && c.capacity > 0 && Filled(c, b, front, names, t) && Distinct(names + [NameOf(r)])
    requires (forall x :: x in front ==> NameOf(x) in names) && r.names == [NameOf(r)]
    requires PutOne(b, r, t) == Ok(d)
    ensures Filled(c, d, front + [r], names + [NameOf(r)], t)
  {
    var n := NameOf(r);
    PutOneStores(b, r, t);
    LatestNext(c.order, names, n, c.capacity);
    DropLast(names + [n]);
    assert (names + [n])[..|names|] == names;
    assert b.order == Latest(c.order, names, c.capacity) && b.capacity == c.capacity;
    hide *;
    FilledFrom(c, b, d, front, r, names, t);
  }

  lemma {:induction false} FilledFrom(c: Cache, b: Cache, d: Cache, front: seq<Response>, r: Response,
      names: seq<string>, t: Table)
    requires Filled(c, b, front, names, t) && Valid(d) && d.capacity == b.capacity
    requires d.order == Latest(c.order, names + [NameOf(r)], c.capacity) && Stored(b, d, r, t)
    requires (forall x :: x in front ==> NameOf(x) in names) && NameOf(r) !in names
    requires forall k :: k in d.store && k != NameOf(r) ==> k in b.store && d.store[k] == b.store[k]
    ensures Filled(c, d, front + [r], names + [NameOf(r)], t)
  {
    hide Valid, Latest, Stored;
    StoredOn(c, b, d, front, r, t, names);
  }

  lemma {:induction false} PutAllStores(c: Cache, rs: seq<Response>, t: Table)
    requires Valid(c) && c.capacity > 0 && Singles(rs) && Distinct(AllNames(rs)) && PutAll(c, rs, t).Ok?
    ensures Filled(c, PutAll(c, rs, t).value, rs, AllNames(rs), t)
  {
    if rs == [] {
      FilledNone(c, t);
    } else {
      var front, r := rs[..|rs| - 1], rs[|rs| - 1];
      var names, n := AllNames(front), NameOf(r);
      assert AllNames(rs) == names + [n] && rs == front + [r];
      DropLast(names + [n]);
      assert (names + [n])[..|names|] == names;
      PutAllStores(c, front, t);
      SingleNames(front);
      forall i | 0 <= i < |front| ensures NameOf(front[i]) in names { assert names[i] == NameOf(front[i]); }
      hide PutOne, Filled, Valid, AllNames, Singles, Distinct;
      FilledNext(c, PutAll(c, front, t).value, PutAll(c, rs, t).value, front, r, names, t);
    }
  }

  lemma {:induction false} StoredOn(c: Cache, b: Cache, d: Cache, front: seq<Response>, r: Response, t: Table,
      names: seq<string>)
    requires (forall x :: x in front ==> Stored(c, b, x, t)) && Stored(b, d, r, t)
    requires (forall x :: x in front ==> NameOf(x) in names) && NameOf(r) !in names
    requires forall k :: k in b.store && k !in names ==> k in c.store && b.store[k] == c.store[k]
    requires forall k :: k in d.store && k != NameOf(r) ==> k in b.store && d.store[k] == b.store[k]
    ensures forall x :: x in front + [r] ==> Stored(c, d, x, t)
    ensures forall k :: k in d.store && k !in names + [NameOf(r)] ==> k in c.store && d.store[k] == c.store[k]
  {
    forall x | x in front + [r] ensures Stored(c, d, x, t) {
      if x in front { assert Stored(c, b, x, t) && NameOf(x) != NameOf(r); }
    }
  }

  // ---------------------------------------------------------------------
  // The end of a cycle
  // ---------------------------------------------------------------------

  lemma {:induction false} ReductionsDistinct(list: seq<Response>, size: nat)
    requires Distinct(AllNames(list)) && forall r :: r in list ==> r.names != []
    ensures Distinct(Reductions(list, size))
  {
    PutsAre(list, size);
    ToCacheNames(list, size);
    DistinctPart(Reductions(list, size), AllNames(list));
  }

  /** Tensor n of the list is cached with its attributes in the table, and with its part of the agreed response unless
      it was cached before. */
  ghost predicate CachedWith(c: Cache, d: Cache, list: seq<Response>, t: Table, n: string) {
    && n in d.bits && n in d.store && n in t && d.store[n].params == t[n]
    && ((n in c.store && d.store[n].response == c.store[n].response)
        || exists g :: g in list && d.store[n].response == g.(names := [n]))
  }

  /** The last `capacity` of these tensors are cached, and come in the recency list as they came, the last one first. */
  ghost predicate LastCached(c: Cache, d: Cache, list: seq<Response>, t: Table, names: seq<string>) {
    forall k :: 0 <= k < |names| && |names| - k <= d.capacity ==>
      && CachedWith(c, d, list, t, names[k])
      && |names| - 1 - k < |d.order| && d.order[|names| - 1 - k] == names[k]
  }

  lemma {:induction false} PutCached(c: Cache, d: Cache, rs: seq<Response>, names: seq<string>, list: seq<Response>,
      t: Table, k: nat)
    requires Filled(c, d, rs, names, t) && |rs| == |names| && k < |names| && |names| - k <= c.capacity
    requires NameOf(rs[k]) == names[k] && PartOf(list, rs[k])
    ensures |names| - 1 - k < |d.order| && d.order[|names| - 1 - k] == names[k]
    ensures CachedWith(c, UpdateBits(d), list, t, names[k])
  {
    LatestAt(c.order, names, d.capacity, k);
    assert d.order[|names| - 1 - k] in d.order;
    assert rs[k] in rs && Stored(c, d, rs[k], t);
    UpdateValid(d);
  }

  lemma {:induction false} FinishPuts(r: Rank, s: Sorted, list: seq<Response>, size: nat)
    requires s.cache.capacity > 0 && FinishSlow(r, s, list, size).Ok?
    ensures PutAll(s.cache, ToCache(list, size), r.table).Ok?
    ensures FinishSlow(r, s, list, size).value.cache
      == UpdateBits(PutAll(s.cache, ToCache(list, size), r.table).value)
  {
  }

  lemma {:induction false} PutsFill(c: Cache, list: seq<Response>, size: nat, t: Table)
    requires Valid(c) && c.capacity > 0 && PutAll(c, ToCache(list, size), t).Ok?
    requires Distinct(AllNames(list)) && forall g :: g in list ==> g.names != []
    ensures
      var puts, names := ToCache(list, size), Reductions(list, size);
      && Filled(c, PutAll(c, puts, t).value, puts, names, t) && |puts| == |names|
      && forall k :: 0 <= k < |puts| ==> NameOf(puts[k]) == names[k] && PartOf(list, puts[k])
  {
    var puts := ToCache(list, size);
    PutsAre(list, size);
    ReductionsDistinct(list, size);
    PutAllStores(c, puts, t);
    SingleNames(puts);
    hide *;
    forall k | 0 <= k < |puts| ensures NameOf(puts[k]) == Reductions(list, size)[k] && PartOf(list, puts[k]) {
      assert puts[k] in puts;
    }
  }

  /** After a cycle with communication: the recency list has the reduced tensors in front, the last one first, then
      what it had, up to the capacity, and each of the last `capacity` reduced tensors is cached. */
  lemma {:induction false} FinishCaches(r: Rank, s: Sorted, list: seq<Response>, size: nat)
    requires Valid(s.cache) && s.cache.capacity > 0 && FinishSlow(r, s, list, size).Ok?
    requires Distinct(AllNames(list)) && forall g :: g in list ==> g.names != []
    ensures
      var d, names := FinishSlow(r, s, list, size).value.cache, Reductions(list, size);
      && Valid(d) && d.capacity == s.cache.capacity && d.order == Latest(s.cache.order, names, d.capacity)
      && LastCached(s.cache, d, list, r.table, names)
  {
    FinishPuts(r, s, list, size);
    PutsFill(s.cache, list, size, r.table);
    hide *;
    var puts := ToCache(list, size);
    var c := PutAll(s.cache, puts, r.table).value;
    FilledUpdated(s.cache, c, puts, Reductions(list, size), r.table);
    PutsCached(s.cache, c, puts, Reductions(list, size), list, r.table);
  }

  lemma {:induction false} FilledUpdated(c: Cache, d: Cache, rs: seq<Response>, names: seq<string>, t: Table)
    requires Filled(c, d, rs, names, t)
    ensures Valid(UpdateBits(d)) && UpdateBits(d).capacity == d.capacity == c.capacity
    ensures UpdateBits(d).order == Latest(c.order, names, c.capacity)
  {
    UpdateValid(d);
  }

  lemma {:induction false} PutsCached(c: Cache, d: Cache, rs: seq<Response>, names: seq<string>, list: seq<Response>,
      t: Table)
    requires Filled(c, d, rs, names, t) && |rs| == |names|
    requires forall k :: 0 <= k < |rs| ==> NameOf(rs[k]) == names[k] && PartOf(list, rs[k])
    ensures LastCached(c, UpdateBits(d), list, t, names)
  {
    forall k | 0 <= k < |names| && |names| - k <= d.capacity
      ensures CachedWith(c, UpdateBits(d), list, t, names[k])
        && |names| - 1 - k < |UpdateBits(d).order| && UpdateBits(d).order[|names| - 1 - k] == names[k]
    {
      assert NameOf(rs[k]) == names[k];
      PutCached(c, d, rs, names, list, t, k);
    }
  }

  lemma {:induction false} LatestAt(past: seq<string>, names: seq<string>, capacity: nat, k: nat)
    requires k < |names| && |names| - k <= capacity
    ensures |names| - 1 - k < |Latest(past, names, capacity)|
    ensures Latest(past, names, capacity)[|names| - 1 - k] == names[k]
  {
    assert Backward(names)[|names| - 1 - k] == names[k];
  }

  // ---------------------------------------------------------------------
  // Answers from the cache
  // ---------------------------------------------------------------------

  ghost predicate AllLive(c: Cache, bits: seq<nat>) {
    forall i :: 0 <= i < |bits| ==> Live(c, bits[i])
  }

  predicate Taken(slots: seq<Option<string>>, bits: seq<nat>) {
    forall i :: 0 <= i < |bits| ==> bits[i] < |slots| && slots[bits[i]].Some?
  }

  /** The names behind bits. */
  function NamesAt(slots: seq<Option<string>>, bits: seq<nat>): (names: seq<string>)
    requires Taken(slots, bits)
  {
    if bits == [] then [] else [slots[bits[0]].value] + NamesAt(slots, bits[1..])
  }

  lemma {:induction false} NamesApart(c: Cache, bits: seq<nat>, b: nat)
    requires Valid(c) && Live(c, b) && AllLive(c, bits) && b !in bits
    ensures Taken(c.slots, bits) && c.slots[b].value !in NamesAt(c.slots, bits)
  {
    if bits != [] {
      assert Live(c, bits[0]) && bits[0] != b;
      NamesApart(c, bits[1..], b);
    }
  }

  lemma {:induction false} WithoutFirst(past: seq<string>, n: string, names: seq<string>)
    ensures WithoutAll(past, [n] + names) == WithoutAll(Without(past, n), names)
  {
    if names == [] {
      assert [n] + names == [n] && [n][..0] == [];
    } else {
      var front, last := names[..|names| - 1], names[|names| - 1];
      assert ([n] + names)[..|names|] == [n] + front;
      WithoutFirst(past, n, front);
    }
  }

  lemma {:induction false} WithoutAllJoined(n: string, s: seq<string>, names: seq<string>)
    requires n !in names
    ensures WithoutAll([n] + s, names) == [n] + WithoutAll(s, names)
  {
    if names != [] {
      WithoutAllJoined(n, s, names[..|names| - 1]);
      WithoutTail([n] + WithoutAll(s, names[..|names| - 1]), names[|names| - 1]);
    }
  }

  lemma {:induction false} BackwardFirst(n: string, names: seq<string>)
    ensures Backward([n] + names) == Backward(names) + [n]
  {
  }

  lemma {:induction false} FrontFirst(past: seq<string>, n: string, names: seq<string>)
    requires n !in names
    ensures Backward(names) + WithoutAll([n] + Without(past, n), names)
      == Backward([n] + names) + WithoutAll(past, [n] + names)
  {
    WithoutFirst(past, n, names);
    WithoutAllJoined(n, Without(past, n), names);
    BackwardFirst(n, names);
    var a, b := Backward(names), WithoutAll(Without(past, n), names);
    assert a + ([n] + b) == (a + [n]) + b;
  }

  lemma {:induction false} TouchedLive(c: Cache, bits: seq<nat>)
    requires Valid(c) && Distinct(bits) && bits != [] && AllLive(c, bits)
    ensures Live(c, bits[0]) && Valid(Get(c, bits[0])) && Distinct(bits[1..]) && AllLive(Get(c, bits[0]), bits[1..])
    ensures Taken(c.slots, bits[1..]) && c.slots[bits[0]].value !in NamesAt(c.slots, bits[1..])
  {
    var rest := bits[1..];
    assert Live(c, bits[0]);
    TouchValid(c, c.slots[bits[0]].value);
    forall i | 0 <= i < |rest| ensures Live(c, rest[i]) && rest[i] != bits[0] {
      assert rest[i] == bits[i + 1] && Live(c, bits[i + 1]);
    }
    hide Valid;
    NamesApart(c, rest, bits[0]);
  }

  /** Answers move to the front of the recency list one after the other; nothing else changes. */
  lemma {:induction false} AnswersToFront(c: Cache, bits: seq<nat>)
    requires Valid(c) && Distinct(bits) && AllLive(c, bits)
    ensures GetAll(c, bits).Ok? && Taken(c.slots, bits)
    ensures
      var names := NamesAt(c.slots, bits);
      GetAll(c, bits).value.0
        == c.(order := Backward(names) + WithoutAll(c.order, names), outdated := c.outdated || bits != [])
    decreases |bits|
  {
    assert Taken(c.slots, bits) by { assert forall i :: 0 <= i < |bits| ==> Live(c, bits[i]); }
    if bits == [] {
      assert Backward([]) + c.order == c.order;
    } else {
      TouchedLive(c, bits);
      var d, n := Get(c, bits[0]), c.slots[bits[0]].value;
      assert d == c.(order := [n] + Without(c.order, n), outdated := true);
      hide Valid, WithoutAll, Backward, Without, Distinct, AllLive, Taken, Get, GetAll;
      AnswersToFront(d, bits[1..]);
      GetAllFirst(c, bits);
      FrontFirst(c.order, n, NamesAt(c.slots, bits[1..]));
    }
  }

  lemma {:induction false} GetAllFirst(c: Cache, bits: seq<nat>)
    requires bits != [] && Live(c, bits[0]) && GetAll(Get(c, bits[0]), bits[1..]).Ok?
    ensures GetAll(c, bits).Ok? && GetAll(c, bits).value.0 == GetAll(Get(c, bits[0]), bits[1..]).value.0
  {
  }
}
