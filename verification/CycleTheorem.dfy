/** A cycle faults exactly at the lookup of an absent name; else it keeps the invariant and gives all ranks one list. */
module CycleTheorem {
  import opened Messages
  import opened Sequences
  import opened CacheModel
  import opened Fusion
  import opened Negotiation
  import opened Invariants
  import opened CycleProofs
  import opened RoundProofs
  import opened TallyProofs
  import opened SlowProofs
  import opened Validation
  import opened PutProofs
  import opened AnswerProofs
  import opened ServedProofs

  /** The coordinator keeps the requests of exactly the names that not everyone has asked for. */
  ghost predicate Settles(w: World, sorted: seq<Sorted>, k: Coordinator) {
    && TablesMatch(k)
    && forall n ::
      && RequestsFor(k, n) == (if Everywhere(w, n) then [] else Filed(w, sorted, n))
      && (n in k.messages <==> RequestsFor(k, n) != [])
  }

  lemma {:induction false} CachedNotFiled(w: World, reports: seq<Report>, all: Report, sorted: seq<Sorted>, n: string)
    requires Round(w, reports, all, sorted) && n in sorted[0].cache.bits
    ensures Filed(w, sorted, n) == []
  {
    if Filed(w, sorted, n) != [] { FiledUncached(w, reports, all, sorted, n); }
  }

  lemma {:induction false} TallyFiled(w: World, sorted: seq<Sorted>, n: string)
    requires Inv(w)
    ensures RequestsFor(Tally(w.coord, Concat(AllSent(sorted)), |w.ranks|).0, n) == Filed(w, sorted, n)
    ensures n in Tally(w.coord, Concat(AllSent(sorted)), |w.ranks|).0.messages <==> Filed(w, sorted, n) != []
  {
    var ms := Concat(AllSent(sorted));
    TallyMessages(w.coord, ms, |w.ranks|, n);
    if n in w.coord.messages { assert FiledInv(w, n); }
    if n in Names(ms) {
      var m := NameOwner(ms, n);
      assert m in For(ms, n);
    } else {
      ForNone(ms, n);
    }
  }

  lemma {:induction false} SlowSettles(w: World, reports: seq<Report>, all: Report, sorted: seq<Sorted>,
      tally: (Coordinator, seq<string>))
    requires Round(w, reports, all, sorted) && AllIdle(w)
    requires tally == Tally(w.coord, Concat(AllSent(sorted)), |w.ranks|)
    ensures Respond(tally.0, tally.1).Ok? && Settles(w, sorted, Respond(tally.0, tally.1).value.0)
  {
    ReadyNames(w, reports, all, sorted);
    forall n
      ensures RequestsFor(tally.0, n) == Filed(w, sorted, n) && (n in tally.0.messages <==> Filed(w, sorted, n) != [])
      ensures n in tally.1 ==> RequestsFor(tally.0, n) != []
      ensures Everywhere(w, n) && n !in tally.1 ==> Filed(w, sorted, n) == []
    {
      TallyFiled(w, sorted, n);
      FiledAll(w, reports, all, sorted, n);
      if n in sorted[0].cache.bits { CachedNotFiled(w, reports, all, sorted, n); }
    }
    RespondOk(tally.0, tally.1);
    TallyMatches(w.coord, Concat(AllSent(sorted)), |w.ranks|);
    var d := Respond(tally.0, tally.1).value.0;
    TablesShrink(tally.0, set n | n in tally.1);
    forall n
      ensures RequestsFor(d, n) == (if Everywhere(w, n) then [] else Filed(w, sorted, n))
        && (n in d.messages <==> RequestsFor(d, n) != [])
    {
      SettledOne(w, sorted, tally.0, tally.1, d, n);
    }
  }

  lemma {:induction false} TablesShrink(k: Coordinator, gone: set<string>)
    requires TablesMatch(k)
    ensures TablesMatch(Coordinator(k.messages - gone, k.waiting - gone))
  {
  }

  lemma {:induction false} Shrunk(k: Coordinator, ready: seq<string>, n: string)
    ensures
      var d := Coordinator(k.messages - (set x | x in ready), k.waiting - (set x | x in ready));
      && RequestsFor(d, n) == (if n in ready then [] else RequestsFor(k, n))
      && (n in d.messages <==> n in k.messages && n !in ready)
  {
  }

  lemma {:induction false} SettledOne(w: World, sorted: seq<Sorted>, k: Coordinator, ready: seq<string>,
      d: Coordinator, n: string)
    requires d == Coordinator(k.messages - (set x | x in ready), k.waiting - (set x | x in ready))
    requires RequestsFor(k, n) == Filed(w, sorted, n) && (n in k.messages <==> Filed(w, sorted, n) != [])
    requires n in ready ==> Everywhere(w, n)
    requires Everywhere(w, n) && n !in ready ==> Filed(w, sorted, n) == []
    ensures RequestsFor(d, n) == (if Everywhere(w, n) then [] else Filed(w, sorted, n))
      && (n in d.messages <==> RequestsFor(d, n) != [])
  {
    Shrunk(k, ready, n);
  }

  // ---------------------------------------------------------------------
  // Every request is accounted for afterwards
  // ---------------------------------------------------------------------

  lemma {:induction false} FiledRanks(w: World, reports: seq<Report>, all: Report, sorted: seq<Sorted>, n: string,
      i: nat)
    requires Round(w, reports, all, sorted) && i < |w.ranks|
    ensures i in RankSet(Filed(w, sorted, n)) <==> i in Waiters(w.coord, n) || n in Names(sorted[i].sent)
  {
    var ms := Filed(w, sorted, n);
    if i in RankSet(ms) {
      var m :| m in ms && m.rank == i;
      FiledMembers(w, reports, all, sorted, n, m);
    }
    if i in Waiters(w.coord, n) {
      var m :| m in RequestsFor(w.coord, n) && m.rank == i;
      assert m in ms;
    }
    if n in Names(sorted[i].sent) {
      var m := NameOwner(sorted[i].sent, n);
      SentByRank(w, reports, all, sorted);
      ConcatMembers(AllSent(sorted));
      assert m in AllSent(sorted)[i];
      assert m in ms && m.rank == i;
    }
  }

  /** Where a queued request goes. */
  lemma {:induction false} QueueParts(w: World, reports: seq<Report>, all: Report, sorted: seq<Sorted>, n: string,
      i: nat)
    requires Round(w, reports, all, sorted) && AllIdle(w) && i < |w.ranks|
    ensures n in Names(sorted[i].kept) ==>
      n in Names(w.ranks[i].queue) && n !in Names(sorted[i].sent) && !Everywhere(w, n)
    ensures n in Names(w.ranks[i].queue) && !Everywhere(w, n) ==>
      n in Names(sorted[i].kept) || n in Names(sorted[i].sent)
    ensures n in Names(sorted[i].sent) ==> n in Names(w.ranks[i].queue)
  {
    var s := sorted[i];
    assert Split(w.ranks[i], all, s) && SameCache(sorted[0].cache, s.cache);
    if n in s.cache.bits { CommonTables(w, reports, all, sorted, n); }
    if n in Names(w.ranks[i].queue) {
      var m := NameOwner(w.ranks[i].queue, n);
      assert m in s.kept || m in s.sent || s.cache.bits[n] in all.hits;
    }
  }

  lemma {:induction false} AccountedAfter(w: World, reports: seq<Report>, all: Report, sorted: seq<Sorted>,
      k: Coordinator, list: seq<Response>, i: nat, r: Rank)
    requires Round(w, reports, all, sorted) && AllIdle(w) && i < |w.ranks| && Settles(w, sorted, k)
    requires Distinct(AllNames(list)) && forall n :: n in AllNames(list) <==> Everywhere(w, n)
    requires r.table == w.ranks[i].table && r.queue == sorted[i].kept && r.pending == list
    ensures Accounted(r, i, k)
  {
    forall n
      ensures n in r.table <==> n in Names(r.queue) || i in Waiters(k, n) || n in AllNames(r.pending)
      ensures n in Names(r.queue) ==> i !in Waiters(k, n) && n !in AllNames(r.pending)
      ensures n in AllNames(r.pending) ==> i !in Waiters(k, n)
    {
      OneAccounted(w, reports, all, sorted, k, i, n);
    }
  }

  lemma {:induction false} IdleAccounted(w: World, i: nat, n: string)
    requires Inv(w) && AllIdle(w) && i < |w.ranks|
    ensures n in w.ranks[i].table <==> n in Names(w.ranks[i].queue) || i in Waiters(w.coord, n)
    ensures n in Names(w.ranks[i].queue) ==> i !in Waiters(w.coord, n)
  {
    assert RankInv(w.ranks[i], i, w.coord, |w.ranks|);
    assert n !in AllNames(w.ranks[i].pending);
  }

  lemma {:induction false} SentNotKept(w: World, reports: seq<Report>, all: Report, sorted: seq<Sorted>,
      k: Coordinator, i: nat, n: string)
    requires Round(w, reports, all, sorted) && AllIdle(w) && i < |w.ranks| && Settles(w, sorted, k)
    ensures i in Waiters(k, n) <==> !Everywhere(w, n) && (i in Waiters(w.coord, n) || n in Names(sorted[i].sent))
  {
    FiledRanks(w, reports, all, sorted, n, i);
    assert RequestsFor(k, n) == (if Everywhere(w, n) then [] else Filed(w, sorted, n));
  }

  lemma {:induction false} OneAccounted(w: World, reports: seq<Report>, all: Report, sorted: seq<Sorted>,
      k: Coordinator, i: nat, n: string)
    requires Round(w, reports, all, sorted) && AllIdle(w) && i < |w.ranks| && Settles(w, sorted, k)
    ensures n in w.ranks[i].table <==> n in Names(sorted[i].kept) || i in Waiters(k, n) || Everywhere(w, n)
    ensures n in Names(sorted[i].kept) ==> i !in Waiters(k, n) && !Everywhere(w, n)
    ensures Everywhere(w, n) ==> i !in Waiters(k, n)
  {
    IdleAccounted(w, i, n);
    QueueParts(w, reports, all, sorted, n, i);
    SentNotKept(w, reports, all, sorted, k, i, n);
  }

  // ---------------------------------------------------------------------
  // The invariant afterwards
  // ---------------------------------------------------------------------

  /** Rank i after the cycle, given its new cache. */
  ghost predicate After(w: World, sorted: seq<Sorted>, list: seq<Response>, i: nat, r: Rank, c: Cache)
    requires i < |w.ranks| == |sorted|
  {
    && r == Rank(w.ranks[i].table, sorted[i].kept, c, sorted[i].watched, list)
    && Valid(c) && !c.outdated && c.capacity == sorted[i].cache.capacity && StoreInv(c, i, |w.ranks|)
    && forall n :: n in c.bits ==> n in sorted[0].cache.bits || Everywhere(w, n)
  }

  lemma {:induction false} RankAfter(w: World, reports: seq<Report>, all: Report, sorted: seq<Sorted>, k: Coordinator,
      list: seq<Response>, i: nat, r: Rank)
    requires Round(w, reports, all, sorted) && AllIdle(w) && i < |w.ranks| && Settles(w, sorted, k)
    requires Distinct(AllNames(list)) && forall n :: n in AllNames(list) <==> Everywhere(w, n)
    requires After(w, sorted, list, i, r, r.cache)
    ensures RankInv(r, i, k, |w.ranks|)
  {
    AccountedAfter(w, reports, all, sorted, k, list, i, r);
    assert Split(w.ranks[i], all, sorted[i]) && RankInv(w.ranks[i], i, w.coord, |w.ranks|);
  }

  lemma {:induction false} FiledKept(w: World, reports: seq<Report>, all: Report, sorted: seq<Sorted>, n: string)
    requires Round(w, reports, all, sorted) && AllIdle(w) && Filed(w, sorted, n) != [] && !Everywhere(w, n)
    ensures |Filed(w, sorted, n)| < |w.ranks| && DistinctRanks(Filed(w, sorted, n)) && n !in sorted[0].cache.bits
    ensures forall m :: m in Filed(w, sorted, n) ==>
      m.name == n && m.rank < |w.ranks| && n in w.ranks[m.rank].table && w.ranks[m.rank].table[n] == ParamsOf(m)
  {
    FiledAll(w, reports, all, sorted, n);
    FiledDistinct(w, reports, all, sorted, n);
    FiledUncached(w, reports, all, sorted, n);
    forall m | m in Filed(w, sorted, n)
      ensures m.name == n && m.rank < |w.ranks| && n in w.ranks[m.rank].table && w.ranks[m.rank].table[n] == ParamsOf(m)
    {
      FiledMembers(w, reports, all, sorted, n, m);
    }
  }

  lemma {:induction false} FiledAfter(w: World, reports: seq<Report>, all: Report, sorted: seq<Sorted>, v: World,
      n: string)
    requires Round(w, reports, all, sorted) && AllIdle(w) && Settles(w, sorted, v.coord)
    requires |v.ranks| == |w.ranks| && forall i :: 0 <= i < |w.ranks| ==> v.ranks[i].table == w.ranks[i].table
    requires n in v.coord.messages
    ensures FiledInv(v, n) && n !in sorted[0].cache.bits && !Everywhere(w, n)
  {
    var ms := Filed(w, sorted, n);
    assert RequestsFor(v.coord, n) == (if Everywhere(w, n) then [] else ms);
    FiledKept(w, reports, all, sorted, n);
    forall m | m in ms
      ensures m.rank < |v.ranks| && n in v.ranks[m.rank].table && v.ranks[m.rank].table[n] == ParamsOf(m)
    {
      assert v.ranks[m.rank].table == w.ranks[m.rank].table;
    }
  }

  lemma {:induction false} InvAfter(w: World, reports: seq<Report>, all: Report, sorted: seq<Sorted>,
      list: seq<Response>, v: World)
    requires Round(w, reports, all, sorted) && AllIdle(w) && Settles(w, sorted, v.coord)
    requires Distinct(AllNames(list)) && forall n :: n in AllNames(list) <==> Everywhere(w, n)
    requires |v.ranks| == |w.ranks|
    requires forall i :: 0 <= i < |w.ranks| ==> After(w, sorted, list, i, v.ranks[i], v.ranks[i].cache)
    requires forall i :: 0 <= i < |w.ranks| ==> SameCache(v.ranks[0].cache, v.ranks[i].cache)
    ensures Inv(v)
  {
    forall i | 0 <= i < |w.ranks| ensures RankInv(v.ranks[i], i, v.coord, |v.ranks|) {
      RankAfter(w, reports, all, sorted, v.coord, list, i, v.ranks[i]);
    }
    forall n | n in v.coord.messages ensures FiledInv(v, n) && n !in v.ranks[0].cache.bits {
      FiledAfter(w, reports, all, sorted, v, n);
      assert After(w, sorted, list, 0, v.ranks[0], v.ranks[0].cache);
    }
  }

  // ---------------------------------------------------------------------
  // Slow cycles
  // ---------------------------------------------------------------------

  /** What is common to fast and slow cycles: one list, fused from one response per wanted tensor. */
  ghost predicate Joint(w: World, sorted: seq<Sorted>, cfg: Config, rs: seq<Response>, list: seq<Response>)
    requires w.ranks != [] && |sorted| == |w.ranks|
  {
    Answers(w, sorted, rs) && Known(rs, w.ranks[0].table) && list == Fuse(rs, w.ranks[0].table, cfg.limit)
  }

  lemma {:induction false} AnswersKnown(w: World, sorted: seq<Sorted>, rs: seq<Response>, i: nat)
    requires |sorted| == |w.ranks| && i < |w.ranks| && Answers(w, sorted, rs)
    ensures Known(rs, w.ranks[i].table)
  {
    forall j | 0 <= j < |rs| ensures NameOf(rs[j]) in w.ranks[i].table {
      assert Usable(w, sorted, rs[j], i);
    }
  }

  lemma {:induction false} AgreedNames(w: World, sorted: seq<Sorted>, cfg: Config, rs: seq<Response>,
      list: seq<Response>)
    requires w.ranks != [] && |sorted| == |w.ranks| && Joint(w, sorted, cfg, rs, list)
    ensures Distinct(AllNames(list)) && forall n :: n in AllNames(list) <==> Everywhere(w, n)
  {
    FuseNames(rs, w.ranks[0].table, cfg.limit);
    DistinctPart(AllNames(list), AllNames(rs));
    DistinctPart(AllNames(rs), AllNames(list));
  }

  lemma {:induction false} StoreSorted(w: World, reports: seq<Report>, all: Report, sorted: seq<Sorted>, i: nat)
    requires Round(w, reports, all, sorted) && i < |w.ranks|
    ensures Valid(sorted[i].cache) && StoreInv(sorted[i].cache, i, |w.ranks|)
    ensures sorted[i].cache.capacity == w.ranks[i].cache.capacity == w.ranks[0].cache.capacity
  {
    assert RankInv(w.ranks[i], i, w.coord, |w.ranks|) && Split(w.ranks[i], all, sorted[i]);
    SameBits(w, i);
  }

  lemma {:induction false} PutsReady(w: World, sorted: seq<Sorted>, cfg: Config, rs: seq<Response>,
      list: seq<Response>, i: nat)
    requires w.ranks != [] && |sorted| == |w.ranks| && i < |w.ranks| && Joint(w, sorted, cfg, rs, list)
    ensures PutReady(sorted[i].cache, ToCache(list, |w.ranks|), w.ranks[i].table, i, |w.ranks|)
    ensures SameTensors(ToCache(list, |w.ranks|), w.ranks[0].table, w.ranks[i].table)
    ensures forall n :: n in AllNames(ToCache(list, |w.ranks|)) ==> Everywhere(w, n)
  {
    var size, t := |w.ranks|, w.ranks[0].table;
    var puts := ToCache(list, size);
    forall x | x in rs && Reduces(x.kind) ensures x.sizes == [] { assert Usable(w, sorted, x, 0); }
    forall j | 0 <= j < |puts|
      ensures puts[j].names == [NameOf(puts[j])] && puts[j] in rs && Cacheable(puts[j], size)
      ensures Usable(w, sorted, puts[j], i)
    {
      ToCacheFused(rs, t, cfg.limit, size, puts[j]);
    }
    ToCacheNames(list, size);
    AgreedNames(w, sorted, cfg, rs, list);
    DistinctPart(AllNames(puts), AllNames(list));
  }

  lemma {:induction false} UpdateKeeps(c: Cache, id: nat, size: nat)
    requires Valid(c) && StoreInv(c, id, size)
    ensures Valid(UpdateBits(c)) && !UpdateBits(c).outdated && StoreInv(UpdateBits(c), id, size)
    ensures UpdateBits(c).capacity == c.capacity
    ensures forall n :: n in UpdateBits(c).bits <==> n in c.bits
  {
    UpdateValid(c);
  }

  lemma {:induction false} UpdateSame(a: Cache, b: Cache)
    requires SameCache(a, b)
    ensures SameCache(UpdateBits(a), UpdateBits(b))
  {
  }

  lemma {:induction false} PutUpdated(c: Cache, puts: seq<Response>, t: Table, id: nat, size: nat)
    requires Valid(c) && c.capacity > 0 && StoreInv(c, id, size) && PutReady(c, puts, t, id, size)
    ensures PutAll(c, puts, t).Ok?
    ensures
      var d := UpdateBits(PutAll(c, puts, t).value);
      && Valid(d) && !d.outdated && StoreInv(d, id, size) && d.capacity == c.capacity
      && (forall n :: n in d.bits ==> n in c.bits || n in AllNames(puts))
  {
    PutAllReady(c, puts, t, id, size);
    UpdateKeeps(PutAll(c, puts, t).value, id, size);
  }

  /** The cache a rank ends a slow cycle with. */
  function Refreshed(c: Cache, list: seq<Response>, size: nat, t: Table): Result<Cache> {
    var d :- if c.capacity > 0 then PutAll(c, ToCache(list, size), t) else Ok(c);
    Ok(UpdateBits(d))
  }

  lemma {:induction false} RefreshKeeps(c: Cache, list: seq<Response>, size: nat, t: Table, id: nat)
    requires Valid(c) && StoreInv(c, id, size)
    requires c.capacity > 0 ==> PutReady(c, ToCache(list, size), t, id, size)
    ensures
      var d := Refreshed(c, list, size, t);
      && d.Ok? && Valid(d.value) && !d.value.outdated && StoreInv(d.value, id, size) && d.value.capacity == c.capacity
      && (forall n :: n in d.value.bits ==> n in c.bits || n in AllNames(ToCache(list, size)))
  {
    if c.capacity > 0 {
      PutUpdated(c, ToCache(list, size), t, id, size);
    } else {
      UpdateKeeps(c, id, size);
    }
  }

  lemma {:induction false} SlowRank(w: World, cfg: Config, reports: seq<Report>, all: Report, sorted: seq<Sorted>,
      rs: seq<Response>, list: seq<Response>, i: nat)
    requires Round(w, reports, all, sorted) && i < |w.ranks| && Joint(w, sorted, cfg, rs, list)
    ensures
      var done := FinishSlow(w.ranks[i], sorted[i], list, |w.ranks|);
      done.Ok? && After(w, sorted, list, i, done.value, done.value.cache)
  {
    StoreSorted(w, reports, all, sorted, i);
    PutsReady(w, sorted, cfg, rs, list, i);
    RefreshKeeps(sorted[i].cache, list, |w.ranks|, w.ranks[i].table, i);
    assert sorted[i].cache.bits == sorted[0].cache.bits by { assert SameCache(sorted[0].cache, sorted[i].cache); }
    SlowRefreshes(w.ranks[i], sorted[i], list, |w.ranks|);
  }

  lemma {:induction false} SlowRefreshes(r: Rank, s: Sorted, list: seq<Response>, size: nat)
    ensures
      var d := Refreshed(s.cache, list, size, r.table);
      FinishSlow(r, s, list, size) == if d.Ok? then Ok(Rank(r.table, s.kept, d.value, s.watched, list))
        else Err(d.fault)
  {
  }

  lemma {:induction false} SlowSame(w: World, cfg: Config, reports: seq<Report>, all: Report, sorted: seq<Sorted>,
      rs: seq<Response>, list: seq<Response>, i: nat)
    requires Round(w, reports, all, sorted) && i < |w.ranks| && Joint(w, sorted, cfg, rs, list)
    requires FinishSlow(w.ranks[0], sorted[0], list, |w.ranks|).Ok?
      && FinishSlow(w.ranks[i], sorted[i], list, |w.ranks|).Ok?
    ensures SameCache(FinishSlow(w.ranks[0], sorted[0], list, |w.ranks|).value.cache,
      FinishSlow(w.ranks[i], sorted[i], list, |w.ranks|).value.cache)
  {
    var size, a, b := |w.ranks|, sorted[0].cache, sorted[i].cache;
    var puts, t, u := ToCache(list, size), w.ranks[0].table, w.ranks[i].table;
    StoreSorted(w, reports, all, sorted, 0);
    StoreSorted(w, reports, all, sorted, i);
    assert SameCache(a, b);
    if a.capacity > 0 {
      PutsReady(w, sorted, cfg, rs, list, 0);
      PutsReady(w, sorted, cfg, rs, list, i);
      PutAllSame(a, b, puts, t, u, 0, i, size);
      UpdateSame(PutAll(a, puts, t).value, PutAll(b, puts, u).value);
    } else {
      UpdateSame(a, b);
    }
  }

  // ---------------------------------------------------------------------
  // Fast cycles
  // ---------------------------------------------------------------------

  lemma {:induction false} FastSorted(w: World, reports: seq<Report>, all: Report, sorted: seq<Sorted>, i: nat)
    requires Round(w, reports, all, sorted) && i < |w.ranks| && w.ranks[0].cache.capacity > 0 && !all.uncached
    ensures sorted[i].sent == [] && sorted[i].cache == w.ranks[i].cache && !sorted[i].cache.outdated
  {
    FastValid(w, reports, all, sorted);
    SameBits(w, i);
    CombineIncludes(reports, i);
    var r, s := w.ranks[i], sorted[i];
    assert RankInv(r, i, w.coord, |w.ranks|) && Split(r, all, s) && Honest(r, reports[i]);
    forall m | m in r.queue ensures m.name in r.cache.bits {
      assert StateOf(m, r.cache) == Hit;
    }
    assert forall m :: m !in s.sent;
    SomeMember(s.sent);
  }

  lemma {:induction false} SomeMember<T(!new)>(s: seq<T>)
    ensures s != [] ==> exists x :: x in s
  {
    if s != [] { assert s[0] in s; }
  }

  lemma {:induction false} FastValid(w: World, reports: seq<Report>, all: Report, sorted: seq<Sorted>)
    requires Round(w, reports, all, sorted) && w.ranks[0].cache.capacity > 0 && !all.uncached
    ensures all.invalid == {}
  {
    forall i | 0 <= i < |w.ranks| ensures reports[i].invalid == {} {
      SameBits(w, i);
      CombineIncludes(reports, i);
      assert Honest(w.ranks[i], reports[i]);
    }
  }

  lemma {:induction false} ConcatEmpty(parts: seq<seq<Request>>)
    requires forall i :: 0 <= i < |parts| ==> parts[i] == []
    ensures Concat(parts) == []
  {
    if parts != [] { ConcatEmpty(parts[..|parts| - 1]); }
  }

  lemma {:induction false} FastSettledOne(w: World, reports: seq<Report>, all: Report, sorted: seq<Sorted>, n: string)
    requires Round(w, reports, all, sorted) && AllIdle(w) && Filed(w, sorted, n) == RequestsFor(w.coord, n)
    ensures RequestsFor(w.coord, n) == (if Everywhere(w, n) then [] else Filed(w, sorted, n))
    ensures n in w.coord.messages <==> RequestsFor(w.coord, n) != []
    ensures Everywhere(w, n) ==> n in sorted[0].cache.bits
  {
    if n in w.coord.messages { assert FiledInv(w, n); }
    FiledAll(w, reports, all, sorted, n);
    if n in sorted[0].cache.bits { CachedNotFiled(w, reports, all, sorted, n); }
  }

  lemma {:induction false} FastFiled(w: World, reports: seq<Report>, all: Report, sorted: seq<Sorted>)
    requires Round(w, reports, all, sorted) && w.ranks[0].cache.capacity > 0 && !all.uncached
    ensures forall n :: Filed(w, sorted, n) == RequestsFor(w.coord, n)
  {
    forall i | 0 <= i < |sorted| ensures AllSent(sorted)[i] == [] { FastSorted(w, reports, all, sorted, i); }
    ConcatEmpty(AllSent(sorted));
  }

  lemma {:induction false} FastSettles(w: World, reports: seq<Report>, all: Report, sorted: seq<Sorted>)
    requires Round(w, reports, all, sorted) && AllIdle(w) && w.ranks[0].cache.capacity > 0 && !all.uncached
    ensures Settles(w, sorted, w.coord)
    ensures forall n :: Everywhere(w, n) ==> n in sorted[0].cache.bits
  {
    FastFiled(w, reports, all, sorted);
    forall n
      ensures RequestsFor(w.coord, n) == (if Everywhere(w, n) then [] else Filed(w, sorted, n))
        && (n in w.coord.messages <==> RequestsFor(w.coord, n) != [])
      ensures Everywhere(w, n) ==> n in sorted[0].cache.bits
    {
      FastSettledOne(w, reports, all, sorted, n);
    }
  }

  lemma {:induction false} CachedReduces(w: World, reports: seq<Report>, all: Report, sorted: seq<Sorted>, r: Response)
    requires Round(w, reports, all, sorted) && FromCache(sorted[0].cache, all, r)
    ensures Reduces(r.kind)
  {
    StoreSorted(w, reports, all, sorted, 0);
  }

  lemma {:induction false} FastNames(w: World, reports: seq<Report>, all: Report, sorted: seq<Sorted>, n: string)
    requires Round(w, reports, all, sorted) && AllIdle(w) && w.ranks[0].cache.capacity > 0 && !all.uncached
    ensures n in sorted[0].cache.bits && sorted[0].cache.bits[n] in all.hits <==> Everywhere(w, n)
  {
    FastSettles(w, reports, all, sorted);
    if n in sorted[0].cache.bits { CommonTables(w, reports, all, sorted, n); }
  }

  lemma {:induction false} FastAnswers(w: World, reports: seq<Report>, all: Report, sorted: seq<Sorted>,
      p: Result<seq<Response>>)
    requires Round(w, reports, all, sorted) && AllIdle(w) && w.ranks[0].cache.capacity > 0 && !all.uncached
    requires p == PeekAll(sorted[0].cache, HitList(all, sorted[0].cache))
    ensures p.Ok? && Answers(w, sorted, p.value)
    ensures forall r :: r in p.value ==> Reduces(r.kind)
  {
    PeekedHits(w, reports, all, sorted);
    forall r | r in p.value ensures Reduces(r.kind) { CachedReduces(w, reports, all, sorted, r); }
    forall r, i | r in p.value && 0 <= i < |w.ranks| ensures Usable(w, sorted, r, i) {
      CachedUsable(w, reports, all, sorted, r, i);
    }
    forall n ensures n in AllNames(p.value) <==> Everywhere(w, n) {
      FastNames(w, reports, all, sorted, n);
    }
  }

  /** No common hit: no tensor is wanted by all ranks. */
  lemma {:induction false} FastNothing(w: World, reports: seq<Report>, all: Report, sorted: seq<Sorted>)
    requires Round(w, reports, all, sorted) && AllIdle(w) && w.ranks[0].cache.capacity > 0 && !all.uncached
      && all.hits == {}
    ensures forall n :: !Everywhere(w, n)
  {
    forall n ensures !Everywhere(w, n) { FastNames(w, reports, all, sorted, n); }
  }

  /** The list every rank arrives at on its own. */
  function FastList(w: World, sorted: seq<Sorted>, all: Report, cfg: Config, rs: seq<Response>): seq<Response>
    requires w.ranks != []
  {
    if all.hits == {} || !Known(rs, w.ranks[0].table) then [] else Fuse(rs, w.ranks[0].table, cfg.limit)
  }

  /** Walking the hits leaves a sound cache of the same names. */
  lemma {:induction false} FastCache(c: Cache, bits: seq<nat>, id: nat, size: nat)
    requires Valid(c) && StoreInv(c, id, size) && PeekAll(c, bits).Ok?
    ensures GetAll(c, bits).Ok? && GetAll(c, bits).value.1 == PeekAll(c, bits).value
    ensures
      var d := UpdateBits(GetAll(c, bits).value.0);
      && Valid(d) && !d.outdated && StoreInv(d, id, size) && d.capacity == c.capacity
      && (forall n :: n in d.bits ==> n in c.bits)
  {
    GetAllPeeks(c, bits);
    UpdateKeeps(GetAll(c, bits).value.0, id, size);
  }

  lemma {:induction false} PeekSame(a: Cache, b: Cache, bits: seq<nat>)
    requires SameCache(a, b) && Valid(a) && Valid(b)
    ensures PeekAll(a, bits) == PeekAll(b, bits)
  {
    GetAllSame(a, b, bits);
    GetAllPeeks(a, bits);
    GetAllPeeks(b, bits);
    PeekFault(a, bits);
    PeekFault(b, bits);
  }

  lemma {:induction false} PeekFault(c: Cache, bits: seq<nat>)
    ensures PeekAll(c, bits).Err? ==> PeekAll(c, bits).fault == MissingKey
  {
    if bits != [] { PeekFault(c, bits[1..]); }
  }

  lemma {:induction false} FastRank(w: World, cfg: Config, reports: seq<Report>, all: Report, sorted: seq<Sorted>,
      rs: seq<Response>, i: nat)
    requires Round(w, reports, all, sorted) && AllIdle(w) && i < |w.ranks| && w.ranks[0].cache.capacity > 0
      && !all.uncached
    requires PeekAll(sorted[0].cache, HitList(all, sorted[0].cache)) == Ok(rs)
    ensures
      var done := FinishFast(w.ranks[i], sorted[i], all, cfg);
      && done.Ok?
      && done.value.1 == ResponseList(FastList(w, sorted, all, cfg, rs), all.hits == {} && all.shutdown)
      && After(w, sorted, FastList(w, sorted, all, cfg, rs), i, done.value.0, done.value.0.cache)
  {
    var c := sorted[i].cache;
    StoreSorted(w, reports, all, sorted, 0);
    StoreSorted(w, reports, all, sorted, i);
    FastSorted(w, reports, all, sorted, i);
    assert SameCache(sorted[0].cache, c);
    if all.hits != {} {
      FastAnswers(w, reports, all, sorted, Ok(rs));
      PeekSame(sorted[0].cache, c, HitList(all, c));
      FastCache(c, HitList(all, c), i, |w.ranks|);
      FastFused(w, sorted, rs, i, cfg);
      FastFinish(w.ranks[i], sorted[i], all, cfg, rs);
    }
  }

  lemma {:induction false} FastFinish(r: Rank, s: Sorted, all: Report, cfg: Config, rs: seq<Response>)
    requires all.hits != {} && Known(rs, r.table)
    requires GetAll(s.cache, HitList(all, s.cache)).Ok? && GetAll(s.cache, HitList(all, s.cache)).value.1 == rs
    ensures
      var list := Fuse(rs, r.table, cfg.limit);
      FinishFast(r, s, all, cfg)
        == Ok((Rank(r.table, s.kept, UpdateBits(GetAll(s.cache, HitList(all, s.cache)).value.0), s.watched, list),
        ResponseList(list, false)))
  {
  }

  /** Each rank fuses from its own table and gets what rank 0 gets. */
  lemma {:induction false} FastFused(w: World, sorted: seq<Sorted>, rs: seq<Response>, i: nat, cfg: Config)
    requires |sorted| == |w.ranks| && i < |w.ranks| && Answers(w, sorted, rs)
    requires forall r :: r in rs ==> Reduces(r.kind)
    ensures Known(rs, w.ranks[i].table) && Known(rs, w.ranks[0].table)
    ensures Fuse(rs, w.ranks[i].table, cfg.limit) == Fuse(rs, w.ranks[0].table, cfg.limit)
  {
    AnswersKnown(w, sorted, rs, 0);
    AnswersKnown(w, sorted, rs, i);
    forall j | 0 <= j < |rs| ensures SameTensor(w.ranks[0].table[NameOf(rs[j])], w.ranks[i].table[NameOf(rs[j])]) {
      assert Usable(w, sorted, rs[j], i);
    }
    FuseSame(rs, w.ranks[0].table, w.ranks[i].table, cfg.limit);
  }

  lemma {:induction false} FastSame(a: Rank, b: Rank, s: Sorted, u: Sorted, all: Report, cfg: Config)
    requires SameCache(s.cache, u.cache) && FinishFast(a, s, all, cfg).Ok? && FinishFast(b, u, all, cfg).Ok?
    ensures SameCache(FinishFast(a, s, all, cfg).value.0.cache, FinishFast(b, u, all, cfg).value.0.cache)
  {
    if all.hits != {} {
      GetAllSame(s.cache, u.cache, HitList(all, s.cache));
      UpdateSame(GetAll(s.cache, HitList(all, s.cache)).value.0, GetAll(u.cache, HitList(all, u.cache)).value.0);
    }
  }

  // ---------------------------------------------------------------------
  // The theorem
  // ---------------------------------------------------------------------

  /** All ranks return the same list; it answers the tensors that everyone has asked for, each once. */
  ghost predicate Served(w: World, o: Outcome, cfg: Config) {
    && w.ranks != [] && |o.lists| == |o.world.ranks| == |w.ranks|
    && (forall i :: 0 <= i < |w.ranks| ==> o.lists[i] == o.lists[0] && o.world.ranks[i].pending == o.lists[0].responses)
    && (forall i :: 0 <= i < |w.ranks| ==> o.world.ranks[i].table == w.ranks[i].table)
    && Distinct(AllNames(o.lists[0].responses))
    && (forall n :: n in AllNames(o.lists[0].responses) <==> Everywhere(w, n))
    && (forall i :: 0 <= i < |w.ranks| ==> RightFor(w, o.lists[0].responses, cfg, i))
  }

  /** Every response suits rank i: its device, its rows, and its fusion buffer. */
  ghost predicate RightFor(w: World, list: seq<Response>, cfg: Config, i: nat)
    requires i < |w.ranks|
  {
    forall g :: g in list ==> Right(g, w.ranks[i].table, i, |w.ranks|, cfg.limit)
  }

  /** Every rank goes on with the messages it kept and the names it still watches. */
  ghost predicate Continues(sorted: seq<Sorted>, v: World) {
    |v.ranks| == |sorted| && forall i :: 0 <= i < |sorted| ==>
      && v.ranks[i].queue == sorted[i].kept && v.ranks[i].watched == sorted[i].watched
      && v.ranks[i].cache.capacity == sorted[i].cache.capacity
  }

  lemma {:induction false} ContinuesAfter(w: World, sorted: seq<Sorted>, list: seq<Response>, v: World)
    requires |v.ranks| == |w.ranks| == |sorted|
    requires forall i :: 0 <= i < |w.ranks| ==> After(w, sorted, list, i, v.ranks[i], v.ranks[i].cache)
    ensures Continues(sorted, v)
  {
    forall i | 0 <= i < |sorted|
      ensures v.ranks[i].queue == sorted[i].kept && v.ranks[i].watched == sorted[i].watched
      ensures v.ranks[i].cache.capacity == sorted[i].cache.capacity
    {
      assert After(w, sorted, list, i, v.ranks[i], v.ranks[i].cache);
    }
  }

  lemma {:induction false} CoordinateIs(w: World, sorted: seq<Sorted>, all: Report, cfg: Config, a: seq<Response>,
      k: Coordinator, b: seq<Response>)
    requires w.ranks != [] && |sorted| == |w.ranks|
    requires (if sorted[0].cache.capacity > 0 then PeekAll(sorted[0].cache, HitList(all, sorted[0].cache)) else Ok([]))
      == Ok(a)
    requires
      var tally := Tally(w.coord, Concat(AllSent(sorted)), |w.ranks|);
      Respond(tally.0, tally.1) == Ok((k, b))
    requires Known(a + b, w.ranks[0].table)
    ensures Coordinate(w, sorted, all, cfg) == Ok((k, Fuse(a + b, w.ranks[0].table, cfg.limit)))
  {
    assert seq(|sorted|, i requires 0 <= i < |sorted| => sorted[i].sent) == AllSent(sorted);
  }

  /** The response was cached under its name, or built from everyone's requests for a name that is not cached. */
  ghost predicate Sourced(w: World, all: Report, sorted: seq<Sorted>, r: Response)
    requires w.ranks != [] && |sorted| == |w.ranks|
  {
    var n, c := NameOf(r), sorted[0].cache;
    FromCache(c, all, r)
    || (n !in c.bits && Everywhere(w, n) && Filed(w, sorted, n) != [] && r == Construct(n, Filed(w, sorted, n)))
  }

  /** The coordinator gets as far as its list. */
  lemma {:induction false} SlowCoordinates(w: World, cfg: Config, reports: seq<Report>, all: Report,
      sorted: seq<Sorted>)
    returns (rs: seq<Response>)
    requires Round(w, reports, all, sorted) && AllIdle(w)
    ensures forall r :: r in rs ==> Sourced(w, all, sorted, r)
    ensures
      var answer := Coordinate(w, sorted, all, cfg);
      answer.Ok? && Joint(w, sorted, cfg, rs, answer.value.1) && Settles(w, sorted, answer.value.0)
  {
    var tally := Tally(w.coord, Concat(AllSent(sorted)), |w.ranks|);
    SlowAnswers(w, reports, all, sorted);
    SlowSettles(w, reports, all, sorted, tally);
    var c := sorted[0].cache;
    var peeked := if c.capacity > 0 then PeekAll(c, HitList(all, c)) else Ok([]);
    var built := Respond(tally.0, tally.1).value;
    rs := peeked.value + built.1;
    AnswersKnown(w, sorted, rs, 0);
    CoordinateIs(w, sorted, all, cfg, peeked.value, built.0, built.1);
    PeekedHits(w, reports, all, sorted);
    BuiltAnswers(w, reports, all, sorted, tally);
    forall r | r in rs ensures Sourced(w, all, sorted, r) {
      assert r in peeked.value || r in built.1;
    }
  }

  lemma {:induction false} SlowInv(w: World, cfg: Config, reports: seq<Report>, all: Report, sorted: seq<Sorted>,
      rs: seq<Response>, answer: (Coordinator, seq<Response>), o: Outcome)
    requires Round(w, reports, all, sorted) && AllIdle(w) && Settles(w, sorted, answer.0)
      && Joint(w, sorted, cfg, rs, answer.1)
    requires SlowDone(w, sorted, answer, all, o)
    ensures Inv(o.world) && Continues(sorted, o.world)
  {
    var list, v := answer.1, o.world;
    forall i | 0 <= i < |w.ranks|
      ensures After(w, sorted, list, i, v.ranks[i], v.ranks[i].cache) && SameCache(v.ranks[0].cache, v.ranks[i].cache)
    {
      SlowRank(w, cfg, reports, all, sorted, rs, list, i);
      SlowSame(w, cfg, reports, all, sorted, rs, list, i);
    }
    hide After, Continues, SameCache;
    ContinuesAfter(w, sorted, list, v);
    AgreedNames(w, sorted, cfg, rs, list);
    InvAfter(w, reports, all, sorted, list, v);
  }

  /** Fast cycles: the list is the same although every rank computes it by itself. */
  lemma {:induction false} FastListNames(w: World, cfg: Config, reports: seq<Report>, all: Report, sorted: seq<Sorted>,
      rs: seq<Response>)
    requires Round(w, reports, all, sorted) && AllIdle(w) && w.ranks[0].cache.capacity > 0 && !all.uncached
    requires PeekAll(sorted[0].cache, HitList(all, sorted[0].cache)) == Ok(rs)
    ensures
      var list := FastList(w, sorted, all, cfg, rs);
      Distinct(AllNames(list)) && forall n :: n in AllNames(list) <==> Everywhere(w, n)
  {
    if all.hits == {} {
      FastNothing(w, reports, all, sorted);
    } else {
      FastAnswers(w, reports, all, sorted, Ok(rs));
      AnswersKnown(w, sorted, rs, 0);
      AgreedNames(w, sorted, cfg, rs, FastList(w, sorted, all, cfg, rs));
    }
  }

  lemma {:induction false} FastInv(w: World, cfg: Config, reports: seq<Report>, all: Report, sorted: seq<Sorted>,
      rs: seq<Response>, o: Outcome)
    requires Round(w, reports, all, sorted) && AllIdle(w) && w.ranks[0].cache.capacity > 0 && !all.uncached
    requires PeekAll(sorted[0].cache, HitList(all, sorted[0].cache)) == Ok(rs) && FastDone(w, sorted, all, cfg, o)
    ensures Inv(o.world) && Continues(sorted, o.world)
  {
    var list, v := FastList(w, sorted, all, cfg, rs), o.world;
    forall i | 0 <= i < |w.ranks|
      ensures After(w, sorted, list, i, v.ranks[i], v.ranks[i].cache) && SameCache(v.ranks[0].cache, v.ranks[i].cache)
    {
      FastRank(w, cfg, reports, all, sorted, rs, i);
      assert SameCache(sorted[0].cache, sorted[i].cache);
      FastSame(w.ranks[0], w.ranks[i], sorted[0], sorted[i], all, cfg);
    }
    hide After, Continues, SameCache;
    ContinuesAfter(w, sorted, list, v);
    FastListNames(w, cfg, reports, all, sorted, rs);
    FastSettles(w, reports, all, sorted);
    InvAfter(w, reports, all, sorted, list, v);
  }

  // ---------------------------------------------------------------------
  // The cycle as a whole
  // ---------------------------------------------------------------------

  lemma {:induction false} InvSameShape(w: World)
    requires Inv(w)
    ensures SameShape(w)
  {
    forall i | 0 <= i < |w.ranks|
      ensures (w.ranks[i].cache.capacity == 0) == (w.ranks[0].cache.capacity == 0)
        && |w.ranks[i].cache.slots| == |w.ranks[0].cache.slots|
    {
      SameBits(w, i);
    }
  }

  /** Some rank's stall inspector looks up a name that is not cached. */
  ghost predicate AnyLookupFails(w: World, inputs: seq<Input>, cfg: Config)
    requires |inputs| == |w.ranks|
  {
    exists i :: 0 <= i < |w.ranks| && LooksUpAbsent(w.ranks[i], inputs[i], cfg)
  }

  /** The bitwise collectives are reached by all ranks unless such a lookup fails. */
  lemma {:induction false} PreparesIff(w: World, inputs: seq<Input>, cfg: Config)
    requires Inv(w) && |inputs| == |w.ranks|
    ensures AllOk(PrepareAll(w, inputs, cfg)).Ok? <==> !AnyLookupFails(w, inputs, cfg)
  {
    forall i | 0 <= i < |w.ranks|
      ensures PrepareAll(w, inputs, cfg)[i].Err? <==> LooksUpAbsent(w.ranks[i], inputs[i], cfg)
    {
      assert RankInv(w.ranks[i], i, w.coord, |w.ranks|);
      LookupFails(w.ranks[i], inputs[i], cfg, i == 0);
    }
  }

  /** Past the bitwise collectives every rank gets through the erasures. */
  lemma {:induction false} SortsOk(w: World, inputs: seq<Input>, cfg: Config, prepared: seq<(Report, set<string>)>,
      all: Report)
    requires Inv(w) && |inputs| == |w.ranks| && AllOk(PrepareAll(w, inputs, cfg)) == Ok(prepared)
      && all == Combine(Reports(prepared))
    ensures AllOk(SortAll(w, prepared, all, cfg)).Ok?
    ensures Round(w, Reports(prepared), all, AllOk(SortAll(w, prepared, all, cfg)).value)
  {
    forall i | 0 <= i < |w.ranks| ensures SortAll(w, prepared, all, cfg)[i].Ok? {
      assert PrepareAll(w, inputs, cfg)[i].Ok?;
      RankSplit(w.ranks[i], i, w.coord, |w.ranks|, inputs[i], prepared[i], all, cfg, Reports(prepared));
    }
    RoundFrom(w, inputs, cfg, prepared, Reports(prepared), all, AllOk(SortAll(w, prepared, all, cfg)).value);
  }

  /** The outcome is sound, and its shutdown flag is `flag`. */
  ghost predicate Sound(w: World, cfg: Config, o: Result<Outcome>, flag: bool) {
    o.Ok? && Inv(o.value.world) && Served(w, o.value, cfg) && o.value.lists[0].shutdown == flag
  }

  /** Every rank does its part as `done` says. */
  ghost predicate FastDone(w: World, sorted: seq<Sorted>, all: Report, cfg: Config, o: Outcome)
    requires |sorted| == |w.ranks|
  {
    && |o.world.ranks| == |o.lists| == |w.ranks| && o.world.coord == w.coord
    && forall i :: 0 <= i < |w.ranks| ==>
      FinishFast(w.ranks[i], sorted[i], all, cfg) == Ok((o.world.ranks[i], o.lists[i]))
  }

  lemma {:induction false} FastOutcomeDone(w: World, sorted: seq<Sorted>, all: Report, cfg: Config)
    requires |sorted| == |w.ranks| && forall i :: 0 <= i < |w.ranks| ==> FinishFast(w.ranks[i], sorted[i], all, cfg).Ok?
    ensures FastOutcome(w, sorted, all, cfg).Ok?
      && FastDone(w, sorted, all, cfg, FastOutcome(w, sorted, all, cfg).value)
  {
  }

  lemma {:induction false} FastRight(w: World, cfg: Config, reports: seq<Report>, all: Report, sorted: seq<Sorted>,
      rs: seq<Response>, i: nat)
    requires Round(w, reports, all, sorted) && AllIdle(w) && TakesFastPath(w.ranks[0], all) && i < |w.ranks|
    requires PeekAll(sorted[0].cache, HitList(all, sorted[0].cache)) == Ok(rs)
    ensures RightFor(w, FastList(w, sorted, all, cfg, rs), cfg, i)
  {
    if all.hits != {} {
      FastAnswers(w, reports, all, sorted, Ok(rs));
      AnswersKnown(w, sorted, rs, 0);
      ListRight(w, sorted, rs, cfg.limit, i);
    }
  }

  lemma {:induction false} FastServed(w: World, cfg: Config, reports: seq<Report>, all: Report, sorted: seq<Sorted>,
      rs: seq<Response>, o: Outcome)
    requires Round(w, reports, all, sorted) && AllIdle(w) && TakesFastPath(w.ranks[0], all)
    requires PeekAll(sorted[0].cache, HitList(all, sorted[0].cache)) == Ok(rs) && FastDone(w, sorted, all, cfg, o)
    ensures Served(w, o, cfg) && o.lists[0].shutdown == (all.hits == {} && all.shutdown)
  {
    forall i | 0 <= i < |w.ranks|
      ensures o.lists[i] == ResponseList(FastList(w, sorted, all, cfg, rs), all.hits == {} && all.shutdown)
      ensures o.world.ranks[i].table == w.ranks[i].table
        && o.world.ranks[i].pending == FastList(w, sorted, all, cfg, rs)
      ensures RightFor(w, FastList(w, sorted, all, cfg, rs), cfg, i)
    {
      FastRank(w, cfg, reports, all, sorted, rs, i);
      FastRight(w, cfg, reports, all, sorted, rs, i);
    }
    FastListNames(w, cfg, reports, all, sorted, rs);
  }

  lemma {:induction false} FastCycle(w: World, cfg: Config, reports: seq<Report>, all: Report, sorted: seq<Sorted>)
    requires Round(w, reports, all, sorted) && AllIdle(w) && TakesFastPath(w.ranks[0], all)
    ensures Sound(w, cfg, FastOutcome(w, sorted, all, cfg), all.hits == {} && all.shutdown)
    ensures Continues(sorted, FastOutcome(w, sorted, all, cfg).value.world)
  {
    PeekedHits(w, reports, all, sorted);
    var rs := PeekAll(sorted[0].cache, HitList(all, sorted[0].cache)).value;
    forall i | 0 <= i < |w.ranks| ensures FinishFast(w.ranks[i], sorted[i], all, cfg).Ok? {
      FastRank(w, cfg, reports, all, sorted, rs, i);
    }
    FastOutcomeDone(w, sorted, all, cfg);
    var o := FastOutcome(w, sorted, all, cfg).value;
    FastServed(w, cfg, reports, all, sorted, rs, o);
    FastInv(w, cfg, reports, all, sorted, rs, o);
  }

  ghost predicate SlowDone(w: World, sorted: seq<Sorted>, answer: (Coordinator, seq<Response>), all: Report, o: Outcome)
    requires |sorted| == |w.ranks|
  {
    && |o.world.ranks| == |o.lists| == |w.ranks| && o.world.coord == answer.0
    && forall i :: 0 <= i < |w.ranks| ==>
      FinishSlow(w.ranks[i], sorted[i], answer.1, |w.ranks|) == Ok(o.world.ranks[i])
      && o.lists[i] == ResponseList(answer.1, all.shutdown)
  }

  lemma {:induction false} SlowOutcomeDone(w: World, sorted: seq<Sorted>, all: Report, cfg: Config)
    requires w.ranks != [] && |sorted| == |w.ranks| && Coordinate(w, sorted, all, cfg).Ok?
    requires forall i :: 0 <= i < |w.ranks| ==>
      FinishSlow(w.ranks[i], sorted[i], Coordinate(w, sorted, all, cfg).value.1, |w.ranks|).Ok?
    ensures SlowOutcome(w, sorted, all, cfg).Ok?
    ensures SlowDone(w, sorted, Coordinate(w, sorted, all, cfg).value, all, SlowOutcome(w, sorted, all, cfg).value)
  {
  }

  lemma {:induction false} SlowServed(w: World, cfg: Config, reports: seq<Report>, all: Report, sorted: seq<Sorted>,
      rs: seq<Response>, answer: (Coordinator, seq<Response>), o: Outcome)
    requires Round(w, reports, all, sorted) && Joint(w, sorted, cfg, rs, answer.1)
      && SlowDone(w, sorted, answer, all, o)
    ensures Served(w, o, cfg) && o.lists[0].shutdown == all.shutdown
  {
    forall i | 0 <= i < |w.ranks|
      ensures o.world.ranks[i].table == w.ranks[i].table && o.world.ranks[i].pending == answer.1
      ensures RightFor(w, answer.1, cfg, i)
    {
      SlowRefreshes(w.ranks[i], sorted[i], answer.1, |w.ranks|);
      ListRight(w, sorted, rs, cfg.limit, i);
    }
    AgreedNames(w, sorted, cfg, rs, answer.1);
  }

  lemma {:induction false} SlowCycle(w: World, cfg: Config, reports: seq<Report>, all: Report, sorted: seq<Sorted>)
    requires Round(w, reports, all, sorted) && AllIdle(w)
    ensures Sound(w, cfg, SlowOutcome(w, sorted, all, cfg), all.shutdown)
    ensures Continues(sorted, SlowOutcome(w, sorted, all, cfg).value.world)
  {
    var rs := SlowCoordinates(w, cfg, reports, all, sorted);
    var answer := Coordinate(w, sorted, all, cfg).value;
    forall i | 0 <= i < |w.ranks| ensures FinishSlow(w.ranks[i], sorted[i], answer.1, |w.ranks|).Ok? {
      SlowRank(w, cfg, reports, all, sorted, rs, answer.1, i);
    }
    SlowOutcomeDone(w, sorted, all, cfg);
    var o := SlowOutcome(w, sorted, all, cfg).value;
    SlowServed(w, cfg, reports, all, sorted, rs, answer, o);
    SlowInv(w, cfg, reports, all, sorted, rs, answer, o);
  }

  /** The parts of a cycle with communication fit together. */
  lemma {:induction false} SlowParts(w: World, cfg: Config, reports: seq<Report>, all: Report, sorted: seq<Sorted>)
    requires Round(w, reports, all, sorted) && AllIdle(w)
    ensures
      var answer, o := Coordinate(w, sorted, all, cfg), SlowOutcome(w, sorted, all, cfg);
      && answer.Ok? && o.Ok? && SlowDone(w, sorted, answer.value, all, o.value)
      && forall x :: x in answer.value.1 ==> x.names != []
  {
    var rs := SlowCoordinates(w, cfg, reports, all, sorted);
    var answer := Coordinate(w, sorted, all, cfg).value;
    AnswersKnown(w, sorted, rs, 0);
    FusedNamed(rs, w.ranks[0].table, cfg.limit);
    forall i | 0 <= i < |w.ranks| ensures FinishSlow(w.ranks[i], sorted[i], answer.1, |w.ranks|).Ok? {
      SlowRank(w, cfg, reports, all, sorted, rs, answer.1, i);
    }
    SlowOutcomeDone(w, sorted, all, cfg);
  }

  /** The parts of a cycle answered from the caches fit together. */
  lemma {:induction false} FastParts(w: World, cfg: Config, reports: seq<Report>, all: Report, sorted: seq<Sorted>)
    requires Round(w, reports, all, sorted) && AllIdle(w) && TakesFastPath(w.ranks[0], all)
    ensures
      var o := FastOutcome(w, sorted, all, cfg);
      o.Ok? && FastDone(w, sorted, all, cfg, o.value) && o.value.world.coord == w.coord
  {
    PeekedHits(w, reports, all, sorted);
    var rs := PeekAll(sorted[0].cache, HitList(all, sorted[0].cache)).value;
    forall i | 0 <= i < |w.ranks| ensures FinishFast(w.ranks[i], sorted[i], all, cfg).Ok? {
      FastRank(w, cfg, reports, all, sorted, rs, i);
    }
    FastOutcomeDone(w, sorted, all, cfg);
  }

  /** Some rank was told to shut down, or the coordinator gave up on stalled tensors. */
  ghost predicate ShutdownAsked(w: World, inputs: seq<Input>, cfg: Config)
    requires |inputs| == |w.ranks|
  {
    exists i :: 0 <= i < |w.ranks|
      && (inputs[i].shutdown || (cfg.watching && inputs[i].checkDue && i == 0 && inputs[i].giveUp))
  }

  /** How far a cycle gets whose lookups succeed. */
  lemma {:induction false} CycleStages(w: World, inputs: seq<Input>, cfg: Config)
    returns (prepared: seq<(Report, set<string>)>, all: Report, sorted: seq<Sorted>)
    requires Inv(w) && |inputs| == |w.ranks| && !AnyLookupFails(w, inputs, cfg)
    ensures AllOk(PrepareAll(w, inputs, cfg)) == Ok(prepared) && all == Combine(Reports(prepared))
    ensures AllOk(SortAll(w, prepared, all, cfg)) == Ok(sorted) && Round(w, Reports(prepared), all, sorted)
    ensures Negotiate(w, inputs, cfg)
      == if TakesFastPath(w.ranks[0], all) then FastOutcome(w, sorted, all, cfg) else SlowOutcome(w, sorted, all, cfg)
  {
    PreparesIff(w, inputs, cfg);
    prepared := AllOk(PrepareAll(w, inputs, cfg)).value;
    all := Combine(Reports(prepared));
    SortsOk(w, inputs, cfg, prepared, all);
    sorted := AllOk(SortAll(w, prepared, all, cfg)).value;
    InvSameShape(w);
  }

  /** Main result: a cycle faults exactly when some rank looks up an absent name; otherwise all ranks return the
      same list, it answers exactly the tensors wanted by all, and the invariant holds again. */
  lemma {:induction false} CycleServes(w: World, inputs: seq<Input>, cfg: Config)
    requires Inv(w) && AllIdle(w) && |inputs| == |w.ranks|
    ensures Negotiate(w, inputs, cfg).Ok? <==> !AnyLookupFails(w, inputs, cfg)
    ensures Negotiate(w, inputs, cfg).Ok? ==>
      Inv(Negotiate(w, inputs, cfg).value.world) && Served(w, Negotiate(w, inputs, cfg).value, cfg)
  {
    if AnyLookupFails(w, inputs, cfg) {
      PreparesIff(w, inputs, cfg);
    } else {
      var prepared, all, sorted := CycleStages(w, inputs, cfg);
      if TakesFastPath(w.ranks[0], all) {
        FastCycle(w, cfg, Reports(prepared), all, sorted);
      } else {
        SlowCycle(w, cfg, Reports(prepared), all, sorted);
      }
    }
  }
}
