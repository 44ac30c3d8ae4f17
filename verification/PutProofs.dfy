/** Caching the agreed responses: no conflict can arise and the ranks stay in lockstep. */
module PutProofs {
  import opened Messages
  import opened Sequences
  import opened CacheModel
  import opened Fusion
  import opened Negotiation
  import opened Invariants

  // ---------------------------------------------------------------------
  // Splitting fused responses again
  // ---------------------------------------------------------------------

  lemma {:induction false} GroupMembers(rs: seq<Response>, t: Table, limit: int, i: nat)
    requires Known(rs, t) && i < |Groups(rs, t, limit)|
    ensures forall m :: m in Groups(rs, t, limit)[i] ==> m in rs
    decreases |rs|
  {
    FuseStep(rs, t, limit);
    var s := GroupOf(rs, t, limit);
    if i == 0 {
      SubsequenceMember(s.0, rs[1..]);
    } else {
      SubsequenceMember(s.1, rs[1..]);
      assert Groups(rs, t, limit)[i] == Groups(s.1, t, limit)[i - 1];
      GroupMembers(s.1, t, limit, i - 1);
    }
  }

  lemma {:induction false} MergeFields(group: seq<Response>)
    requires group != [] && Reduces(group[0].kind)
    ensures Merge(group).kind == group[0].kind && Merge(group).devices == group[0].devices
      && Merge(group).sizes == group[0].sizes
  {
    if |group| > 1 { MergeFields(group[..|group| - 1]); }
  }

  lemma {:induction false} UnfuseMember(group: seq<Response>, t: Table, limit: int, i: nat)
    requires Lawful(group, t, limit) && i < |group| && group[i].names == [NameOf(group[i])]
      && group[i].sizes == group[0].sizes
    ensures group[i] == group[0].(names := [NameOf(group[i])])
  {
    assert Compatible(group[0], group[i], t);
  }

  lemma {:induction false} PiecesAre(m: Response, group: seq<Response>)
    requires |m.names| == |group| && forall i :: 0 <= i < |group| ==> m.(names := [m.names[i]]) == group[i]
    ensures Pieces(m, |group|) == group
  {
  }

  /** The cache splits a fused reduction into exactly the responses that were fused. */
  lemma {:induction false} UnfuseMerge(group: seq<Response>, t: Table, limit: int)
    requires Lawful(group, t, limit) && Singles(group) && Reduces(group[0].kind)
    requires forall i :: 0 <= i < |group| ==> group[i].sizes == group[0].sizes
    ensures Unfuse(Merge(group)) == group
  {
    MergeFields(group);
    MergeNames(group);
    SingleNames(group);
    var m := Merge(group);
    forall i | 0 <= i < |group| ensures m.(names := [m.names[i]]) == group[i] {
      UnfuseMember(group, t, limit, i);
    }
    if |group| == 1 {
      assert group == [group[0]];
    } else {
      hide Merge, Lawful, Pieces, AllNames;
      PiecesAre(m, group);
    }
  }

  lemma {:induction false} ToCacheMembers(list: seq<Response>, size: nat, r: Response)
    requires r in ToCache(list, size)
    ensures exists i :: 0 <= i < |list| && Cacheable(list[i], size) && r in Unfuse(list[i])
  {
    var front, last := list[..|list| - 1], list[|list| - 1];
    if r in ToCache(front, size) {
      ToCacheMembers(front, size, r);
      var i :| 0 <= i < |front| && Cacheable(front[i], size) && r in Unfuse(front[i]);
      assert list[i] == front[i];
    } else {
      assert Cacheable(list[|list| - 1], size) && r in Unfuse(list[|list| - 1]);
    }
  }

  lemma {:induction false} ToCacheFused(rs: seq<Response>, t: Table, limit: int, size: nat, r: Response)
    requires Known(rs, t) && Singles(rs)
    requires forall x :: x in rs && Reduces(x.kind) ==> x.sizes == []
    requires r in ToCache(Fuse(rs, t, limit), size)
    ensures r in rs && Cacheable(r, size)
  {
    var list, groups := Fuse(rs, t, limit), Groups(rs, t, limit);
    GroupsNonEmpty(rs, t, limit);
    ToCacheMembers(list, size, r);
    var i :| 0 <= i < |list| && Cacheable(list[i], size) && r in Unfuse(list[i]);
    var group := groups[i];
    assert list[i] == Merge(group);
    GroupsLawful(rs, t, limit);
    GroupMembers(rs, t, limit, i);
    MergedKind(group);
    forall j | 0 <= j < |group| ensures group[j].names == [NameOf(group[j])] && group[j].sizes == [] {
      assert group[j] in rs;
      assert Compatible(group[0], group[j], t);
    }
    assert group[0].sizes == [];
    UnfuseMerge(group, t, limit);
    MergeFields(group);
    var j :| 0 <= j < |group| && group[j] == r;
    assert Compatible(group[0], group[j], t);
  }

  lemma {:induction false} MergedKind(group: seq<Response>)
    requires group != []
    ensures Merge(group).kind == group[0].kind
  {
    if |group| > 1 { MergedKind(group[..|group| - 1]); }
  }

  lemma {:induction false} UnfuseNames(r: Response)
    ensures AllNames(Unfuse(r)) == r.names
  {
    if |r.names| > 1 {
      var ps := Pieces(r, |r.names|);
      assert forall i :: 0 <= i < |ps| ==> NameOf(ps[i]) == r.names[i];
      SingleNames(ps);
    } else {
      assert AllNames([r]) == r.names;
    }
  }

  lemma {:induction false} ToCacheNames(list: seq<Response>, size: nat)
    ensures multiset(AllNames(ToCache(list, size))) <= multiset(AllNames(list))
  {
    if list != [] {
      var front, last := list[..|list| - 1], list[|list| - 1];
      ToCacheNames(front, size);
      if Cacheable(last, size) {
        AllNamesAppend(ToCache(front, size), Unfuse(last));
        UnfuseNames(last);
      } else {
        assert ToCache(front, size) + [] == ToCache(front, size);
      }
    }
  }

  // ---------------------------------------------------------------------
  // Putting
  // ---------------------------------------------------------------------

  /** Reductions of different tensors that are in the table and match what the cache may hold of them. */
  ghost predicate PutReady(c: Cache, rs: seq<Response>, t: Table, id: nat, size: nat) {
    && Singles(rs) && Distinct(AllNames(rs))
    && forall i :: 0 <= i < |rs| ==> ReadyOne(c, rs[i], t, id, size)
  }

  ghost predicate ReadyOne(c: Cache, r: Response, t: Table, id: nat, size: nat) {
    && id < size && Cacheable(r, size) && r.sizes == []
    && NameOf(r) in t && r.devices[id] == t[NameOf(r)].device
    && (NameOf(r) in c.bits ==> NameOf(r) in c.store && c.store[NameOf(r)].params == t[NameOf(r)])
  }

  /** Entries either were there before, untouched, or are among the new names. */
  ghost predicate Grown(c: Cache, d: Cache, names: seq<string>) {
    && d.capacity == c.capacity
    && forall n :: n in d.bits ==>
      (n in c.bits && n in c.store && n in d.store && d.store[n] == c.store[n]) || n in names
  }

  lemma {:induction false} InsertGrows(c: Cache, n: string, e: Entry, bit: nat, id: nat, size: nat)
    requires StoreInv(c, id, size) && (forall k :: k in c.bits ==> k in c.store)
    requires Cacheable(e.response, size) && e.response.sizes == [] && e.response.devices[id] == e.params.device
    ensures StoreInv(Insert(c, n, e, bit), id, size) && Grown(c, Insert(c, n, e, bit), [n])
  {
  }

  lemma {:induction false} EraseGrows(c: Cache, bit: nat, id: nat, size: nat, n: string)
    requires Valid(c) && StoreInv(c, id, size) && Live(c, bit)
    ensures StoreInv(Erase(c, bit), id, size) && Grown(c, Erase(c, bit), [n])
    ensures forall k :: k in Erase(c, bit).bits ==> k in Erase(c, bit).store
  {
  }

  lemma {:induction false} PutEvicts(c: Cache, r: Response, p: TensorParams, id: nat, size: nat)
    requires Valid(c) && c.capacity > 0 && StoreInv(c, id, size) && NameOf(r) !in c.bits
    requires Cacheable(r, size) && r.sizes == [] && r.devices[id] == p.device
    ensures Put(c, r, p).Ok?
    ensures StoreInv(Put(c, r, p).value, id, size) && Grown(c, Put(c, r, p).value, [NameOf(r)])
  {
    var n := NameOf(r);
    if |c.order| == c.capacity {
      var bit := c.bits[c.order[|c.order| - 1]];
      assert Live(c, bit);
      EraseGrows(c, bit, id, size, n);
      InsertGrows(Erase(c, bit), n, Entry(r, p), bit, id, size);
      GrownTwice(c, Erase(c, bit), Insert(Erase(c, bit), n, Entry(r, p), bit), [n]);
    } else {
      InsertGrows(c, n, Entry(r, p), |c.slots|, id, size);
    }
  }

  lemma {:induction false} GrownTwice(c: Cache, d: Cache, e: Cache, names: seq<string>)
    requires Grown(c, d, names) && Grown(d, e, names)
    ensures Grown(c, e, names)
  {
  }

  lemma {:induction false} PutOneReady(c: Cache, r: Response, t: Table, id: nat, size: nat)
    requires Valid(c) && c.capacity > 0 && StoreInv(c, id, size)
    requires r.names == [NameOf(r)] && ReadyOne(c, r, t, id, size)
    ensures PutOne(c, r, t).Ok?
    ensures Valid(PutOne(c, r, t).value) && StoreInv(PutOne(c, r, t).value, id, size)
    ensures Grown(c, PutOne(c, r, t).value, [NameOf(r)])
  {
    PutValid(c, r, t[NameOf(r)]);
    if NameOf(r) !in c.bits { PutEvicts(c, r, t[NameOf(r)], id, size); }
  }

  lemma {:induction false} ReadyFront(c: Cache, rs: seq<Response>, t: Table, id: nat, size: nat)
    requires rs != [] && PutReady(c, rs, t, id, size)
    ensures PutReady(c, rs[..|rs| - 1], t, id, size)
    ensures NameOf(rs[|rs| - 1]) !in AllNames(rs[..|rs| - 1])
    ensures AllNames(rs) == AllNames(rs[..|rs| - 1]) + [NameOf(rs[|rs| - 1])]
  {
    var a, n := AllNames(rs[..|rs| - 1]), NameOf(rs[|rs| - 1]);
    assert AllNames(rs) == a + [n];
    DropLast(a + [n]);
    assert (a + [n])[..|a|] == a;
  }

  /** Caching a cycle's responses never meets a conflicting entry. */
  lemma {:induction false} PutAllReady(c: Cache, rs: seq<Response>, t: Table, id: nat, size: nat)
    requires Valid(c) && c.capacity > 0 && StoreInv(c, id, size) && PutReady(c, rs, t, id, size)
    ensures PutAll(c, rs, t).Ok?
    ensures Valid(PutAll(c, rs, t).value) && StoreInv(PutAll(c, rs, t).value, id, size)
    ensures Grown(c, PutAll(c, rs, t).value, AllNames(rs))
  {
    if rs != [] {
      var front, r := rs[..|rs| - 1], rs[|rs| - 1];
      ReadyFront(c, rs, t, id, size);
      PutAllReady(c, front, t, id, size);
      PutOneReady(PutAll(c, front, t).value, r, t, id, size);
    }
  }

  lemma {:induction false} InsertSame(a: Cache, b: Cache, n: string, e: Entry, f: Entry, bit: nat)
    requires SameCache(a, b) && SameEntry(e, f)
    ensures SameCache(Insert(a, n, e, bit), Insert(b, n, f, bit))
  {
  }

  lemma {:induction false} PutOneSame(a: Cache, b: Cache, r: Response, t: Table, u: Table)
    requires SameCache(a, b) && PutOne(a, r, t).Ok? && PutOne(b, r, u).Ok?
    requires NameOf(r) in t && NameOf(r) in u && SameTensor(t[NameOf(r)], u[NameOf(r)])
    ensures SameCache(PutOne(a, r, t).value, PutOne(b, r, u).value)
  {
    if a.capacity == 0 {
    } else {
      var n, e, f := NameOf(r), Entry(r, t[NameOf(r)]), Entry(r, u[NameOf(r)]);
      if n in a.bits {
      } else if |a.order| == a.capacity && a.order[|a.order| - 1] in a.bits {
        var bit := a.bits[a.order[|a.order| - 1]];
        EraseSame(a, b, bit);
        InsertSame(Erase(a, bit), Erase(b, bit), n, e, f, bit);
      } else {
        InsertSame(a, b, n, e, f, |a.slots|);
      }
    }
  }

  lemma {:induction false} PutAllSame(a: Cache, b: Cache, rs: seq<Response>, t: Table, u: Table, i: nat, j: nat,
      size: nat)
    requires Valid(a) && Valid(b) && a.capacity > 0 && SameCache(a, b)
    requires StoreInv(a, i, size) && StoreInv(b, j, size)
    requires PutReady(a, rs, t, i, size) && PutReady(b, rs, u, j, size) && SameTensors(rs, t, u)
    ensures PutAll(a, rs, t).Ok? && PutAll(b, rs, u).Ok?
    ensures SameCache(PutAll(a, rs, t).value, PutAll(b, rs, u).value)
  {
    PutAllReady(a, rs, t, i, size);
    PutAllReady(b, rs, u, j, size);
    if rs != [] {
      var front, r := rs[..|rs| - 1], rs[|rs| - 1];
      ReadyFront(a, rs, t, i, size);
      ReadyFront(b, rs, u, j, size);
      PutAllReady(a, front, t, i, size);
      PutAllReady(b, front, u, j, size);
      PutAllSame(a, b, front, t, u, i, j, size);
      PutOneSame(PutAll(a, front, t).value, PutAll(b, front, u).value, r, t, u);
    }
  }
}
