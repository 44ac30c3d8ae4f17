/** What a served response means to each rank: its own device, its own rows, and room in its buffer. */
module ServedProofs {
  import opened Messages
  import opened CacheModel
  import opened Fusion
  import opened Negotiation
  import opened AnswerProofs
  import opened PutProofs

  lemma {:induction false} BufferTotal(head: Response, ms: seq<Response>, t: Table)
    requires Singles(ms) && Known(ms, t) && (Reduces(head.kind) || Gathers(head))
    ensures |SizesOf(ms)| == |AllNames(ms)| && forall n :: n in AllNames(ms) ==> n in t
    ensures BufferBytes(head.kind, AllNames(ms), SizesOf(ms), t) == Total(head, ms, t)
  {
    SingleNames(ms);
    SizesOfEach(ms);
    if ms != [] {
      ConsNames(ms);
      BufferTotal(head, ms[1..], t);
      assert AllNames(ms)[1..] == AllNames(ms[1..]) && SizesOf(ms)[1..] == SizesOf(ms[1..]);
    }
  }

  lemma {:induction false} TotalSame(head: Response, ms: seq<Response>, t: Table, u: Table)
    requires Known(ms, t) && Known(ms, u) && forall i :: 0 <= i < |ms| ==> Cost(head, ms[i], t) == Cost(head, ms[i], u)
    ensures Total(head, ms, t) == Total(head, ms, u)
  {
    if ms != [] {
      assert Cost(head, ms[0], t) == Cost(head, ms[0], u);
      TotalSame(head, ms[1..], t, u);
    }
  }

  /** The sizes play no part in a reduction's bytes. */
  lemma {:induction false} ReduceBytes(kind: ResponseKind, names: seq<string>, a: seq<seq<nat>>, b: seq<seq<nat>>,
      t: Table)
    requires Reduces(kind) && |a| == |b| == |names| && forall n :: n in names ==> n in t
    ensures BufferBytes(kind, names, a, t) == BufferBytes(kind, names, b, t)
  {
    if names != [] { ReduceBytes(kind, names[1..], a[1..], b[1..], t); }
  }

  /** Fused responses carry names. */
  lemma {:induction false} FusedNamed(rs: seq<Response>, t: Table, limit: int)
    requires Known(rs, t) && Singles(rs)
    ensures forall g :: g in Fuse(rs, t, limit) ==> g.names != []
  {
    var groups, list := Groups(rs, t, limit), Fuse(rs, t, limit);
    GroupsNonEmpty(rs, t, limit);
    forall k | 0 <= k < |list| ensures list[k].names != [] {
      GroupMembers(rs, t, limit, k);
      assert Singles(groups[k]) by {
        forall j | 0 <= j < |groups[k]|
          ensures groups[k][j].names == [NameOf(groups[k][j])]
        {
          assert groups[k][j] in rs;
        }
      }
      MergeNames(groups[k]);
      SingleNames(groups[k]);
    }
  }

  /** The rows that rank i contributes to the k-th tensor of `g`. */
  function ChunksOf(g: Response, size: nat): seq<seq<nat>> {
    Chunks(g.sizes, size, |g.names|)
  }

  ghost predicate Right(g: Response, t: Table, i: nat, size: nat, limit: int) {
    && |g.devices| == size && i < size
    && (forall n :: n in g.names ==> n in t && g.devices[i] == t[n].device)
    && (|g.names| > 1 ==> BufferBytes(g.kind, g.names, ChunksOf(g, size), t) <= limit)
    && (Gathers(g) ==> forall k :: 0 <= k < |g.names| ==>
         |ChunksOf(g, size)[k]| == size && t[g.names[k]].shape != []
           && ChunksOf(g, size)[k][i] == t[g.names[k]].shape[0])
  }

  ghost predicate AllUsable(w: World, sorted: seq<Sorted>, group: seq<Response>, i: nat)
    requires i < |w.ranks| == |sorted|
  {
    forall k :: 0 <= k < |group| ==> Usable(w, sorted, group[k], i)
  }

  lemma {:induction false} CostsSame(w: World, sorted: seq<Sorted>, group: seq<Response>, i: nat)
    requires i < |w.ranks| == |sorted| && group != [] && AllUsable(w, sorted, group, i)
    requires Reduces(group[0].kind) || Gathers(group[0])
    requires forall k :: 0 <= k < |group| ==> group[k].kind == group[0].kind
    ensures Known(group, w.ranks[i].table) && Known(group, w.ranks[0].table)
    ensures forall k :: 0 <= k < |group| ==>
      Cost(group[0], group[k], w.ranks[0].table) == Cost(group[0], group[k], w.ranks[i].table)
  {
    forall k | 0 <= k < |group|
      ensures NameOf(group[k]) in w.ranks[0].table && NameOf(group[k]) in w.ranks[i].table
      ensures Cost(group[0], group[k], w.ranks[0].table) == Cost(group[0], group[k], w.ranks[i].table)
    {
      assert Usable(w, sorted, group[k], i);
    }
  }

  lemma {:induction false} MergeDevices(group: seq<Response>)
    requires group != []
    ensures Merge(group).devices == group[0].devices && Merge(group).kind == group[0].kind
  {
    if |group| > 1 { MergeDevices(group[..|group| - 1]); }
  }

  lemma {:induction false} GroupBytes(w: World, sorted: seq<Sorted>, group: seq<Response>, limit: int, i: nat)
    requires i < |w.ranks| == |sorted| && Lawful(group, w.ranks[0].table, limit) && Singles(group) && |group| > 1
    requires AllUsable(w, sorted, group, i)
    ensures forall n :: n in Merge(group).names ==> n in w.ranks[i].table
    ensures BufferBytes(Merge(group).kind, Merge(group).names, ChunksOf(Merge(group), |w.ranks|),
      w.ranks[i].table) <= limit
  {
    var head, t, u, g := group[0], w.ranks[0].table, w.ranks[i].table, Merge(group);
    forall k | 0 <= k < |group| ensures group[k].kind == head.kind { assert Compatible(head, group[k], t); }
    CostsSame(w, sorted, group, i);
    TotalSame(head, group, t, u);
    BufferTotal(head, group, u);
    MergeNames(group);
    MergeDevices(group);
    SingleNames(group);
    if Gathers(head) {
      forall k | 0 <= k < |group| ensures |group[k].sizes| == |w.ranks| { assert Usable(w, sorted, group[k], i); }
      MergeChunks(group, |w.ranks|);
    } else {
      ReduceBytes(head.kind, g.names, ChunksOf(g, |w.ranks|), SizesOf(group), u);
    }
  }

  lemma {:induction false} GroupRows(w: World, sorted: seq<Sorted>, group: seq<Response>, i: nat, k: nat)
    requires i < |w.ranks| == |sorted| && group != [] && Gathers(group[0]) && Singles(group) && k < |group|
    requires AllUsable(w, sorted, group, i) && forall j :: 0 <= j < |group| ==> group[j].kind == group[0].kind
    ensures
      var g := Merge(group);
      && |g.names| == |group| && g.names[k] in w.ranks[i].table
      && |ChunksOf(g, |w.ranks|)[k]| == |w.ranks| && w.ranks[i].table[g.names[k]].shape != []
      && ChunksOf(g, |w.ranks|)[k][i] == w.ranks[i].table[g.names[k]].shape[0]
  {
    forall j | 0 <= j < |group| ensures |group[j].sizes| == |w.ranks| { assert Usable(w, sorted, group[j], i); }
    MergeNames(group);
    SingleNames(group);
    MergeChunks(group, |w.ranks|);
    SizesOfEach(group);
    assert Usable(w, sorted, group[k], i);
  }

  lemma {:induction false} GroupRight(w: World, sorted: seq<Sorted>, group: seq<Response>, limit: int, i: nat)
    requires i < |w.ranks| == |sorted| && Lawful(group, w.ranks[0].table, limit) && Singles(group)
    requires AllUsable(w, sorted, group, i)
    ensures Right(Merge(group), w.ranks[i].table, i, |w.ranks|, limit)
  {
    var g := Merge(group);
    MergeNames(group);
    MergeDevices(group);
    SingleNames(group);
    forall k | 0 <= k < |group| ensures group[k].kind == group[0].kind && group[k].devices == group[0].devices {
      assert Compatible(group[0], group[k], w.ranks[0].table);
    }
    forall n | n in g.names ensures n in w.ranks[i].table && g.devices[i] == w.ranks[i].table[n].device {
      var k :| 0 <= k < |group| && AllNames(group)[k] == n;
      assert Usable(w, sorted, group[k], i);
    }
    assert Usable(w, sorted, group[0], i);
    if |group| > 1 { GroupBytes(w, sorted, group, limit, i); }
    if Gathers(g) {
      forall k | 0 <= k < |g.names|
        ensures |ChunksOf(g, |w.ranks|)[k]| == |w.ranks| && w.ranks[i].table[g.names[k]].shape != []
          && ChunksOf(g, |w.ranks|)[k][i] == w.ranks[i].table[g.names[k]].shape[0]
      {
        GroupRows(w, sorted, group, i, k);
      }
    }
  }

  lemma {:induction false} ListRight(w: World, sorted: seq<Sorted>, rs: seq<Response>, limit: int, i: nat)
    requires i < |w.ranks| == |sorted| && Answers(w, sorted, rs) && Known(rs, w.ranks[0].table)
    ensures forall g :: g in Fuse(rs, w.ranks[0].table, limit) ==> Right(g, w.ranks[i].table, i, |w.ranks|, limit)
  {
    var t := w.ranks[0].table;
    GroupsNonEmpty(rs, t, limit);
    GroupsLawful(rs, t, limit);
    var groups, list := Groups(rs, t, limit), Fuse(rs, t, limit);
    forall k | 0 <= k < |list| ensures Right(list[k], w.ranks[i].table, i, |w.ranks|, limit) {
      var group := groups[k];
      GroupMembers(rs, t, limit, k);
      forall j | 0 <= j < |group| ensures Usable(w, sorted, group[j], i) && group[j].names == [NameOf(group[j])] {
        assert group[j] in rs;
      }
      GroupRight(w, sorted, group, limit, i);
    }
  }
}
