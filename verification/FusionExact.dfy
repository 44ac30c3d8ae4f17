/** Which responses are fused: everything that may share a buffer with the head, up to where the buffer is full. */
module FusionExact {
  import opened Messages
  import opened Sequences
  import opened Fusion

  /** Bytes that the responses need in a buffer for `kind`: those of the output for an allgather. */
  function Room(kind: ResponseKind, rs: seq<Response>, t: Table): nat
    requires Known(rs, t)
  {
    if rs == [] then 0
    else (if kind == Perform(Allgather) then GatherBytes(rs[0].sizes, t[NameOf(rs[0])]) else Bytes(t[NameOf(rs[0])]))
         + Room(kind, rs[1..], t)
  }

  /** Bytes of what the ranks contribute to an allgather, each its own rows. */
  function Contributed(sizes: seq<nat>, p: TensorParams): nat
    requires p.shape != []
  {
    if sizes == [] then 0 else Bytes(p.(shape := [sizes[0]] + p.shape[1..])) + Contributed(sizes[1..], p)
  }

  lemma {:induction false} RowBytes(n: nat, p: TensorParams)
    requires p.shape != []
    ensures Bytes(p.(shape := [n] + p.shape[1..])) == n * Product(p.shape[1..]) * ElementSize(p.dtype)
  {
    assert ([n] + p.shape[1..])[1..] == p.shape[1..];
  }

  lemma {:induction false} Distribute(a: nat, b: nat, x: nat, e: nat)
    ensures (a + b) * x * e == a * x * e + b * x * e
  {
  }

  /** The output of an allgather has room for what all ranks contribute, and no more. */
  lemma {:induction false} GatheredBytes(sizes: seq<nat>, p: TensorParams)
    requires p.shape != []
    ensures GatherBytes(sizes, p) == Contributed(sizes, p)
  {
    var x, e := Product(p.shape[1..]), ElementSize(p.dtype);
    if sizes != [] {
      GatheredBytes(sizes[1..], p);
      RowBytes(sizes[0], p);
      Distribute(sizes[0], Sum(sizes[1..]), x, e);
    }
  }

  /** One operation on the same devices and elements. */
  predicate Joins(head: Response, r: Response, t: Table)
    requires NameOf(head) in t && NameOf(r) in t
  {
    && head.kind in {Perform(Allreduce), Perform(Adasum), Perform(Allgather)}
    && r.kind == head.kind && r.devices == head.devices && t[NameOf(r)].dtype == t[NameOf(head)].dtype
  }

  /** Those of the responses that could share a buffer with `head`. */
  function Joining(head: Response, rs: seq<Response>, t: Table): (s: seq<Response>)
    requires NameOf(head) in t && Known(rs, t)
    ensures Known(s, t)
  {
    if rs == [] then [] else (if Joins(head, rs[0], t) then [rs[0]] else []) + Joining(head, rs[1..], t)
  }

  /** Bytes of the first k responses. */
  function Upto(kind: ResponseKind, rs: seq<Response>, t: Table, k: nat): nat
    requires Known(rs, t) && k <= |rs|
  {
    Room(kind, rs[..k], t)
  }

  /** Bytes of those of the first k that could share a buffer with `head`. */
  function JoiningUpto(head: Response, rs: seq<Response>, t: Table, k: nat): nat
    requires NameOf(head) in t && Known(rs, t) && k <= |rs|
  {
    Room(head.kind, Joining(head, rs[..k], t), t)
  }

  lemma {:induction false} RoomOne(head: Response, r: Response, t: Table)
    requires NameOf(head) in t && NameOf(r) in t
    ensures Room(head.kind, [r], t) == Cost(head, r, t)
    ensures head.kind in {Perform(Allreduce), Perform(Adasum), Perform(Allgather)} ==>
      (Joins(head, r, t) <==> Compatible(head, r, t))
  {
    assert [r][1..] == [];
  }

  lemma {:induction false} UptoNext(head: Response, rs: seq<Response>, t: Table, k: nat)
    requires NameOf(head) in t && rs != [] && Known(rs, t) && k < |rs|
    ensures Upto(head.kind, rs, t, k + 1) == Cost(head, rs[0], t) + Upto(head.kind, rs[1..], t, k)
    ensures JoiningUpto(head, rs, t, k + 1)
      == (if Joins(head, rs[0], t) then Cost(head, rs[0], t) else 0) + JoiningUpto(head, rs[1..], t, k)
  {
    var more := Joining(head, rs[1..][..k], t);
    RoomOne(head, rs[0], t);
    assert rs[..k + 1] == [rs[0]] + rs[1..][..k] && rs[..k + 1][1..] == rs[1..][..k];
    assert [] + more == more && ([rs[0]] + more)[1..] == more;
  }

  // ---------------------------------------------------------------------
  // The look-ahead
  // ---------------------------------------------------------------------

  /** Of the first k, those that cannot join may be passed over: all bytes so far would still fit. */
  ghost predicate Passes(head: Response, used: nat, rs: seq<Response>, t: Table, limit: int, k: nat)
    requires NameOf(head) in t && Known(rs, t) && k <= |rs|
    decreases k
  {
    k == 0 || (
      var total := used + Cost(head, rs[0], t);
      (Joins(head, rs[0], t) || total <= limit) && Passes(head, total, rs[1..], t, limit, k - 1))
  }

  /** The look-ahead gets as far as place k, having used `total` and passed over `skipped` bytes, and takes it. */
  ghost predicate Reaches(head: Response, total: nat, skipped: nat, rs: seq<Response>, t: Table, limit: int, k: nat)
    requires NameOf(head) in t && Known(rs, t) && k < |rs|
  {
    && Joins(head, rs[k], t) && total + JoiningUpto(head, rs, t, k + 1) <= limit
    && Passes(head, total + skipped, rs, t, limit, k)
  }

  lemma {:induction false} PassesEach(head: Response, used: nat, rs: seq<Response>, t: Table, limit: int, k: nat)
    requires NameOf(head) in t && Known(rs, t) && k <= |rs|
    ensures Passes(head, used, rs, t, limit, k) <==>
      forall j: nat :: j < k && !Joins(head, rs[j], t) ==> used + Upto(head.kind, rs, t, j + 1) <= limit
    decreases k
  {
    if k > 0 {
      var total, tail := used + Cost(head, rs[0], t), rs[1..];
      PassesEach(head, total, tail, t, limit, k - 1);
      assert Upto(head.kind, tail, t, 0) == 0;
      forall j: nat | j < k
        ensures Upto(head.kind, rs, t, j + 1) == Cost(head, rs[0], t) + Upto(head.kind, tail, t, j)
        ensures j > 0 ==> tail[j - 1] == rs[j]
      {
        UptoNext(head, rs, t, j);
      }
      hide Upto, Joins, Cost;
      EachShifted(head, used, rs, t, limit, k);
    }
  }

  lemma {:induction false} EachShifted(head: Response, used: nat, rs: seq<Response>, t: Table, limit: int, k: nat)
    requires NameOf(head) in t && Known(rs, t) && 0 < k <= |rs|
    requires forall j: nat :: j < k ==>
      Upto(head.kind, rs, t, j + 1) == Cost(head, rs[0], t) + Upto(head.kind, rs[1..], t, j)
    requires Upto(head.kind, rs[1..], t, 0) == 0
    ensures
      var total, tail := used + Cost(head, rs[0], t), rs[1..];
      (forall j: nat :: j < k && !Joins(head, rs[j], t) ==> used + Upto(head.kind, rs, t, j + 1) <= limit) <==>
        && (Joins(head, rs[0], t) || total <= limit)
        && forall j: nat :: j < k - 1 && !Joins(head, tail[j], t) ==> total + Upto(head.kind, tail, t, j + 1) <= limit
  {
    hide Upto, Joins, Cost;
    var total, tail := used + Cost(head, rs[0], t), rs[1..];
    if forall j: nat :: j < k && !Joins(head, rs[j], t) ==> used + Upto(head.kind, rs, t, j + 1) <= limit {
      forall j: nat | j < k - 1 && !Joins(head, tail[j], t) ensures total + Upto(head.kind, tail, t, j + 1) <= limit {
        assert tail[j] == rs[j + 1];
      }
    }
    if (Joins(head, rs[0], t) || total <= limit)
      && forall j: nat :: j < k - 1 && !Joins(head, tail[j], t) ==> total + Upto(head.kind, tail, t, j + 1) <= limit
    {
      forall j: nat | j < k && !Joins(head, rs[j], t) ensures used + Upto(head.kind, rs, t, j + 1) <= limit {
        if j > 0 { assert tail[j - 1] == rs[j]; }
      }
    }
  }

  /** Whether place k is reached, seen from the next place. */
  lemma {:induction false} ReachesNext(head: Response, total: nat, skipped: nat, rs: seq<Response>, t: Table,
      limit: int, k: nat)
    requires NameOf(head) in t && Known(rs, t) && 1 <= k < |rs|
    ensures
      var c := Cost(head, rs[0], t);
      Reaches(head, total, skipped, rs, t, limit, k) <==>
        if Joins(head, rs[0], t) then Reaches(head, total + c, skipped, rs[1..], t, limit, k - 1)
        else total + skipped + c <= limit && Reaches(head, total, skipped + c, rs[1..], t, limit, k - 1)
  {
    UptoNext(head, rs, t, k);
    assert rs[1..][k - 1] == rs[k];
    hide Upto, JoiningUpto, Joins, Cost;
  }

  lemma {:induction false} ScanAt(head: Response, total: nat, skipped: nat, rs: seq<Response>, t: Table, limit: int,
      k: nat)
    requires NameOf(head) in t && Known(rs, t) && Distinct(rs) && k < |rs|
    requires head.kind in {Perform(Allreduce), Perform(Adasum), Perform(Allgather)}
    ensures Distinct(rs[1..])
    ensures
      var c, tail := Cost(head, rs[0], t), rs[1..];
      rs[k] in Scan(head, total, skipped, rs, t, limit).0 <==>
        if Joins(head, rs[0], t) then
          total + c <= limit && (k == 0 || tail[k - 1] in Scan(head, total + c, skipped, tail, t, limit).0)
        else
          total + skipped + c <= limit && k > 0 && tail[k - 1] in Scan(head, total, skipped + c, tail, t, limit).0
  {
    var c, tail := Cost(head, rs[0], t), rs[1..];
    ScanHas(head, total, skipped, rs, t, limit, rs[k]);
    ScanWithin(head, total, skipped + c, tail, t, limit);
    assert rs == [rs[0]] + tail;
    assert rs[0] !in tail;
    if k > 0 { assert tail[k - 1] == rs[k] && rs[k] != rs[0]; }
    hide Scan, Joins, Cost, Known;
  }

  /** The look-ahead takes exactly what it reaches. */
  lemma {:induction false} ScanReaches(head: Response, total: nat, skipped: nat, rs: seq<Response>, t: Table,
      limit: int, k: nat)
    requires NameOf(head) in t && Known(rs, t) && Distinct(rs) && k < |rs|
    requires head.kind in {Perform(Allreduce), Perform(Adasum), Perform(Allgather)}
    ensures rs[k] in Scan(head, total, skipped, rs, t, limit).0 <==>
      Reaches(head, total, skipped, rs, t, limit, k)
    decreases |rs|
  {
    var c, tail := Cost(head, rs[0], t), rs[1..];
    ScanAt(head, total, skipped, rs, t, limit, k);
    UptoNext(head, rs, t, k);
    assert JoiningUpto(head, tail, t, 0) == 0;
    if k > 0 { ReachesNext(head, total, skipped, rs, t, limit, k); }
    hide Scan, Joins, Cost, Upto, JoiningUpto, Distinct;
    if Joins(head, rs[0], t) {
      if k > 0 && total + c <= limit { ScanReaches(head, total + c, skipped, tail, t, limit, k - 1); }
    } else if k > 0 && total + skipped + c <= limit {
      ScanReaches(head, total, skipped + c, tail, t, limit, k - 1);
    }
  }

  /** A step of the look-ahead. */
  lemma {:induction false} ScanHas(head: Response, total: nat, skipped: nat, rs: seq<Response>, t: Table, limit: int,
      x: Response)
    requires NameOf(head) in t && Known(rs, t) && rs != []
    requires head.kind in {Perform(Allreduce), Perform(Adasum), Perform(Allgather)}
    ensures
      var c, tail := Cost(head, rs[0], t), rs[1..];
      x in Scan(head, total, skipped, rs, t, limit).0 <==>
        if Joins(head, rs[0], t) then
          total + c <= limit && (x == rs[0] || x in Scan(head, total + c, skipped, tail, t, limit).0)
        else total + skipped + c <= limit && x in Scan(head, total, skipped + c, tail, t, limit).0
  {
    RoomOne(head, rs[0], t);
  }

  lemma {:induction false} ScanWithin(head: Response, total: nat, skipped: nat, rs: seq<Response>, t: Table,
      limit: int)
    requires NameOf(head) in t && Known(rs, t)
    ensures forall x :: x in Scan(head, total, skipped, rs, t, limit).0 ==> x in rs
  {
    ScanDeals(head, total, skipped, rs, t, limit);
    var s := Scan(head, total, skipped, rs, t, limit);
    InterleavesSubsequences(s.0, s.1, rs);
    SubsequenceMember(s.0, rs);
  }

  // ---------------------------------------------------------------------
  // The first response
  // ---------------------------------------------------------------------

  lemma {:induction false} SinglesDistinct(rs: seq<Response>)
    requires Singles(rs) && Distinct(AllNames(rs))
    ensures Distinct(rs)
    ensures forall i, j :: 0 <= i < |rs| && 0 <= j < |rs| && NameOf(rs[i]) == NameOf(rs[j]) ==> i == j
  {
    SingleNames(rs);
    forall i, j | 0 <= i < j < |rs| ensures NameOf(rs[i]) != NameOf(rs[j]) {
      assert AllNames(rs)[i] == NameOf(rs[i]) && AllNames(rs)[j] == NameOf(rs[j]);
    }
  }

  lemma {:induction false} GroupSingles(rs: seq<Response>, others: seq<Response>)
    requires rs != [] && Singles(rs) && forall x :: x in others ==> x in rs[1..]
    ensures Singles([rs[0]] + others) && forall x :: x in [rs[0]] + others ==> x in rs
  {
    var group := [rs[0]] + others;
    forall i | 0 <= i < |group| ensures group[i] in rs && group[i].names == [NameOf(group[i])] {
      if i > 0 { assert group[i] == others[i - 1] && others[i - 1] in rs[1..]; }
    }
  }

  lemma {:induction false} MergedNames(group: seq<Response>, n: string)
    requires group != [] && Singles(group)
    ensures n in Merge(group).names <==> exists i :: 0 <= i < |group| && NameOf(group[i]) == n
  {
    MergeNames(group);
    SingleNames(group);
    hide Merge, AllNames;
    var names := AllNames(group);
    if n in names {
      var i :| 0 <= i < |names| && names[i] == n;
      assert NameOf(group[i]) == n;
    }
    if i :| 0 <= i < |group| && NameOf(group[i]) == n { assert names[i] == n; }
  }

  lemma {:induction false} MemberNamed(group: seq<Response>, r: Response)
    requires Singles(group) && r in group
    ensures NameOf(r) in Merge(group).names
  {
    MergedNames(group, NameOf(r));
    var i :| 0 <= i < |group| && group[i] == r;
    assert NameOf(group[i]) == NameOf(r);
  }

  lemma {:induction false} NamedMember(rs: seq<Response>, group: seq<Response>, r: Response)
    requires group != [] && Singles(group) && r in rs && NameOf(r) in Merge(group).names
    requires forall x :: x in group ==> x in rs
    requires forall i, j :: 0 <= i < |rs| && 0 <= j < |rs| && NameOf(rs[i]) == NameOf(rs[j]) ==> i == j
    ensures r in group
  {
    MergedNames(group, NameOf(r));
    var i :| 0 <= i < |group| && NameOf(group[i]) == NameOf(r);
    assert group[i] in rs;
  }

  lemma {:induction false} FirstGroup(rs: seq<Response>, t: Table, limit: int)
    requires rs != [] && Known(rs, t) && Singles(rs)
    ensures Fuse(rs, t, limit) != []
    ensures
      var group := [rs[0]] + GroupOf(rs, t, limit).0;
      Fuse(rs, t, limit)[0] == Merge(group) && Singles(group) && forall x :: x in group ==> x in rs
  {
    FuseStep(rs, t, limit);
    SubsequenceMember(GroupOf(rs, t, limit).0, rs[1..]);
    GroupSingles(rs, GroupOf(rs, t, limit).0);
  }

  lemma {:induction false} FirstMembers(rs: seq<Response>, t: Table, limit: int, k: nat)
    requires Known(rs, t) && Singles(rs) && Distinct(AllNames(rs)) && k < |rs|
    ensures Fuse(rs, t, limit) != []
    ensures NameOf(rs[k]) in Fuse(rs, t, limit)[0].names <==> rs[k] in [rs[0]] + GroupOf(rs, t, limit).0
  {
    FirstGroup(rs, t, limit);
    SinglesDistinct(rs);
    hide *;
    var group := [rs[0]] + GroupOf(rs, t, limit).0;
    if NameOf(rs[k]) in Merge(group).names { NamedMember(rs, group, rs[k]); }
    if rs[k] in group { MemberNamed(group, rs[k]); }
  }

  lemma {:induction false} FirstReached(rs: seq<Response>, t: Table, limit: int, k: nat)
    requires Known(rs, t) && Distinct(rs) && 0 < k < |rs|
    ensures rs[k] in [rs[0]] + GroupOf(rs, t, limit).0 <==>
      Joins(rs[0], rs[k], t) && JoiningUpto(rs[0], rs, t, k + 1) <= limit && Passes(rs[0], 0, rs, t, limit, k)
  {
    var head, rest := rs[0], rs[1..];
    assert Distinct(rest) && rest[k - 1] == rs[k] && rs[k] != head;
    if head.kind in {Perform(Allreduce), Perform(Adasum), Perform(Allgather)} {
      ScanReaches(head, Cost(head, head, t), 0, rest, t, limit, k - 1);
      UptoNext(head, rs, t, k);
      assert Joins(head, head, t);
      hide Joins, Cost, Upto, JoiningUpto, Scan;
    }
  }

  /** A tensor shares the buffer of the first one exactly if it is of the same operation, devices and elements, fits
      in with those of its like before it, and whatever else comes before it would have fitted in as well. */
  lemma {:induction false} FirstExact(rs: seq<Response>, t: Table, limit: int, k: nat)
    requires Known(rs, t) && Singles(rs) && Distinct(AllNames(rs)) && 0 < k < |rs|
    ensures Fuse(rs, t, limit) != []
    ensures NameOf(rs[k]) in Fuse(rs, t, limit)[0].names <==>
      && Joins(rs[0], rs[k], t) && JoiningUpto(rs[0], rs, t, k + 1) <= limit
      && forall j: nat :: j < k && !Joins(rs[0], rs[j], t) ==> Upto(rs[0].kind, rs, t, j + 1) <= limit
  {
    FirstMembers(rs, t, limit, k);
    SinglesDistinct(rs);
    FirstReached(rs, t, limit, k);
    PassesEach(rs[0], 0, rs, t, limit, k);
    hide Joins, Upto, JoiningUpto, Passes, GroupOf, Fuse, AllNames, Distinct, Singles;
  }

  lemma {:induction false} ScanGoesOn(head: Response, total: nat, skipped: nat, rs: seq<Response>, t: Table,
      limit: int, x: Response)
    requires NameOf(head) in t && Known(rs, t) && rs != []
    requires head.kind in {Perform(Allreduce), Perform(Adasum), Perform(Allgather)}
    requires total + skipped + Cost(head, rs[0], t) <= limit
    requires
      var c, tail := Cost(head, rs[0], t), rs[1..];
      if Joins(head, rs[0], t) then x == rs[0] || x in Scan(head, total + c, skipped, tail, t, limit).0
      else x in Scan(head, total, skipped + c, tail, t, limit).0
    ensures x in Scan(head, total, skipped, rs, t, limit).0
  {
    ScanHas(head, total, skipped, rs, t, limit, x);
    hide Scan, Joins, Cost;
  }

  lemma {:induction false} ScanTakes(head: Response, total: nat, skipped: nat, rs: seq<Response>, t: Table, limit: int,
      k: nat)
    requires NameOf(head) in t && Known(rs, t) && k < |rs| && Joins(head, rs[k], t)
    requires total + skipped + Upto(head.kind, rs, t, k + 1) <= limit
    ensures rs[k] in Scan(head, total, skipped, rs, t, limit).0
    decreases k
  {
    var c, tail := Cost(head, rs[0], t), rs[1..];
    UptoNext(head, rs, t, k);
    assert Known(tail, t) && head.kind in {Perform(Allreduce), Perform(Adasum), Perform(Allgather)};
    hide *;
    if k > 0 {
      assert tail[k - 1] == rs[k];
      if Joins(head, rs[0], t) {
        ScanTakes(head, total + c, skipped, tail, t, limit, k - 1);
      } else {
        ScanTakes(head, total, skipped + c, tail, t, limit, k - 1);
      }
    }
    ScanGoesOn(head, total, skipped, rs, t, limit, rs[k]);
  }

  lemma {:induction false} GroupTakes(rs: seq<Response>, t: Table, limit: int, k: nat)
    requires Known(rs, t) && 0 < k < |rs| && Joins(rs[0], rs[k], t) && Room(rs[0].kind, rs[..k + 1], t) <= limit
    ensures rs[k] in GroupOf(rs, t, limit).0
  {
    assert Upto(rs[0].kind, rs, t, k + 1) <= limit;
    UptoNext(rs[0], rs, t, k);
    assert rs[1..][k - 1] == rs[k];
    hide Upto, JoiningUpto, Room, Scan, Cost;
    ScanTakes(rs[0], Cost(rs[0], rs[0], t), 0, rs[1..], t, limit, k - 1);
  }

  /** What fits together is fused: a tensor of the first one's operation, devices and elements is in the first response
      if all tensors up to it need no more than the limit. */
  lemma {:induction false} FitsFused(rs: seq<Response>, t: Table, limit: int, k: nat)
    requires Known(rs, t) && Singles(rs) && k < |rs|
    requires rs[0].kind == Perform(Allreduce) || rs[0].kind == Perform(Adasum) || rs[0].kind == Perform(Allgather)
    requires rs[k].kind == rs[0].kind && rs[k].devices == rs[0].devices
    requires t[NameOf(rs[k])].dtype == t[NameOf(rs[0])].dtype
    requires Room(rs[0].kind, rs[..k + 1], t) <= limit
    ensures Fuse(rs, t, limit) != [] && NameOf(rs[k]) in Fuse(rs, t, limit)[0].names
  {
    FirstGroup(rs, t, limit);
    if k > 0 { GroupTakes(rs, t, limit, k); }
    hide *;
    MemberNamed([rs[0]] + GroupOf(rs, t, limit).0, rs[k]);
  }

  lemma {:induction false} RoomCons(head: Response, rs: seq<Response>, t: Table)
    requires NameOf(head) in t && rs != [] && Known(rs, t)
    ensures Room(head.kind, rs, t) == Cost(head, rs[0], t) + Room(head.kind, rs[1..], t)
  {
    hide GatherBytes, Bytes;
  }

  lemma {:induction false} ScanAll(head: Response, total: nat, rs: seq<Response>, t: Table, limit: int)
    requires NameOf(head) in t && Known(rs, t) && head.kind in {Perform(Allreduce), Perform(Adasum), Perform(Allgather)}
    requires (forall i :: 0 <= i < |rs| ==> Joins(head, rs[i], t)) && total + Room(head.kind, rs, t) <= limit
    ensures Scan(head, total, 0, rs, t, limit) == (rs, [])
    decreases |rs|
  {
    if rs != [] {
      RoomOne(head, rs[0], t);
      RoomCons(head, rs, t);
      hide Room, Cost;
      ScanAll(head, total + Cost(head, rs[0], t), rs[1..], t, limit);
      assert [rs[0]] + rs[1..] == rs;
    }
  }

  /** Tensors of one operation, on the same devices and of the same elements, are answered by a single response if they
      fit together. */
  lemma {:induction false} UniformOne(rs: seq<Response>, t: Table, limit: int)
    requires rs != [] && Known(rs, t) && Singles(rs)
    requires rs[0].kind == Perform(Allreduce) || rs[0].kind == Perform(Adasum) || rs[0].kind == Perform(Allgather)
    requires forall r :: r in rs ==>
      r.kind == rs[0].kind && r.devices == rs[0].devices && t[NameOf(r)].dtype == t[NameOf(rs[0])].dtype
    requires Room(rs[0].kind, rs, t) <= limit
    ensures |Fuse(rs, t, limit)| == 1 && Fuse(rs, t, limit)[0].names == AllNames(rs)
  {
    RoomOne(rs[0], rs[0], t);
    assert [rs[0]] + rs[1..] == rs;
    forall i | 0 <= i < |rs| - 1 ensures Joins(rs[0], rs[1..][i], t) { assert rs[i + 1] in rs; }
    ScanAll(rs[0], Cost(rs[0], rs[0], t), rs[1..], t, limit);
    FuseStep(rs, t, limit);
    MergeNames(rs);
  }

  // ---------------------------------------------------------------------
  // The other responses
  // ---------------------------------------------------------------------

  /** Those not named, in order. */
  function Outside(rs: seq<Response>, names: seq<string>): seq<Response> {
    if rs == [] then [] else (if NameOf(rs[0]) in names then [] else [rs[0]]) + Outside(rs[1..], names)
  }

  lemma {:induction false} DealtOutside(a: seq<Response>, b: seq<Response>, c: seq<Response>, names: seq<string>)
    requires Interleaves(a, b, c)
    requires (forall x :: x in a ==> NameOf(x) in names) && forall x :: x in b ==> NameOf(x) !in names
    ensures Outside(c, names) == b
    decreases |c|
  {
    if c != [] {
      if a != [] && a[0] == c[0] && Interleaves(a[1..], b, c[1..]) {
        DealtOutside(a[1..], b, c[1..], names);
      } else {
        DealtOutside(a, b[1..], c[1..], names);
        assert b == [b[0]] + b[1..];
      }
    }
  }

  lemma {:induction false} DealtApart(a: seq<Response>, b: seq<Response>, c: seq<Response>)
    requires Interleaves(a, b, c) && Distinct(c)
    ensures forall x :: x in a ==> x !in b
  {
    InterleavesMultiset(a, b, c);
    forall x | x in a ensures x !in b {
      OccursOnce(c, x);
      assert multiset(a)[x] >= 1;
    }
  }

  lemma {:induction false} GroupNamed(rs: seq<Response>, a: seq<Response>, b: seq<Response>)
    requires rs != [] && Singles(rs) && Distinct(AllNames(rs)) && Interleaves(a, b, rs[1..])
    ensures
      var names := Merge([rs[0]] + a).names;
      && NameOf(rs[0]) in names && (forall x :: x in a ==> NameOf(x) in names)
      && forall x :: x in b ==> NameOf(x) !in names
  {
    SinglesDistinct(rs);
    assert Distinct(rs[1..]);
    DealtApart(a, b, rs[1..]);
    InterleavesSubsequences(a, b, rs[1..]);
    SubsequenceMember(a, rs[1..]);
    SubsequenceMember(b, rs[1..]);
    hide Interleaves, Subsequence, AllNames, Distinct, Merge;
    var group := [rs[0]] + a;
    GroupSingles(rs, a);
    MergedNames(group, NameOf(rs[0]));
    assert NameOf(group[0]) == NameOf(rs[0]);
    forall x | x in a ensures NameOf(x) in Merge(group).names {
      MergedNames(group, NameOf(x));
      var i :| 0 <= i < |a| && a[i] == x;
      assert group[i + 1] == x;
    }
    forall x | x in b ensures NameOf(x) !in Merge(group).names { OtherNamed(rs, a, b, x); }
  }

  lemma {:induction false} OtherNamed(rs: seq<Response>, a: seq<Response>, b: seq<Response>, x: Response)
    requires rs != [] && Singles([rs[0]] + a) && x in b && (forall y :: y in a ==> y in rs[1..] && y !in b)
    requires forall y :: y in b ==> y in rs[1..]
    requires forall i, j :: 0 <= i < |rs| && 0 <= j < |rs| && NameOf(rs[i]) == NameOf(rs[j]) ==> i == j
    ensures NameOf(x) !in Merge([rs[0]] + a).names
  {
    var group := [rs[0]] + a;
    MergedNames(group, NameOf(x));
    var j :| 0 <= j < |rs| - 1 && rs[1..][j] == x;
    assert rs[j + 1] == x;
    forall i | 0 <= i < |group| ensures NameOf(group[i]) != NameOf(x) {
      if i > 0 {
        assert group[i] == a[i - 1] && a[i - 1] in rs[1..];
        var k :| 0 <= k < |rs| - 1 && rs[1..][k] == group[i];
        assert rs[k + 1] == group[i];
      } else {
        assert group[0] == rs[0];
      }
    }
  }

  /** What is not in the first response is fused like a queue of its own. */
  lemma {:induction false} OthersFused(rs: seq<Response>, t: Table, limit: int)
    requires rs != [] && Known(rs, t) && Singles(rs) && Distinct(AllNames(rs))
    ensures Fuse(rs, t, limit) != []
    ensures
      var others := Outside(rs, Fuse(rs, t, limit)[0].names);
      Known(others, t) && Fuse(rs, t, limit)[1..] == Fuse(others, t, limit)
  {
    FuseStep(rs, t, limit);
    var s := GroupOf(rs, t, limit);
    GroupNamed(rs, s.0, s.1);
    hide Fuse, Groups, GroupOf, Subsequence, Interleaves, Merge;
    DealtOutside(s.0, s.1, rs[1..], Fuse(rs, t, limit)[0].names);
    assert [] + s.1 == s.1;
  }
}
