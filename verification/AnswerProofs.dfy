/** The responses of a cycle: one for every tensor that all ranks asked for, and no other. */
module AnswerProofs {
  import opened Messages
  import opened Sequences
  import opened CacheModel
  import opened Fusion
  import opened Negotiation
  import opened Invariants
  import opened CycleProofs
  import opened RoundProofs
  import opened TallyProofs
  import opened SlowProofs
  import opened Validation
  import opened ValidationProofs
  import opened PutProofs

  lemma {:induction false} PeekAllEach(c: Cache, bits: seq<nat>)
    requires forall b :: b in bits ==> Live(c, b)
    ensures PeekAll(c, bits).Ok? && |PeekAll(c, bits).value| == |bits|
    ensures forall i :: 0 <= i < |bits| ==> Live(c, bits[i]) && PeekAll(c, bits).value[i] == Peek(c, bits[i])
  {
    if bits != [] {
      assert bits[0] in bits;
      PeekAllEach(c, bits[1..]);
      forall i | 0 <= i < |bits| ensures Live(c, bits[i]) && PeekAll(c, bits).value[i] == Peek(c, bits[i]) {
        assert bits[i] in bits;
        if i > 0 { assert bits[i] == bits[1..][i - 1]; }
      }
    }
  }

  /** Walking the hits with get returns what peek would, and only changes the recency order. */
  lemma {:induction false} GetAllPeeks(c: Cache, bits: seq<nat>)
    requires Valid(c)
    ensures GetAll(c, bits).Ok? == PeekAll(c, bits).Ok?
    ensures GetAll(c, bits).Ok? ==>
      var d := GetAll(c, bits).value.0;
      && GetAll(c, bits).value.1 == PeekAll(c, bits).value
      && Valid(d) && d.store == c.store && d.bits == c.bits && d.slots == c.slots && d.capacity == c.capacity
    decreases |bits|
  {
    if bits != [] && Live(c, bits[0]) {
      var d := Get(c, bits[0]);
      TouchValid(c, c.slots[bits[0]].value);
      PeekTouched(c, d, bits[1..]);
      GetAllPeeks(d, bits[1..]);
    }
  }

  lemma {:induction false} PeekTouched(c: Cache, d: Cache, bits: seq<nat>)
    requires c.store == d.store && c.slots == d.slots
    ensures PeekAll(c, bits) == PeekAll(d, bits)
  {
    if bits != [] { PeekTouched(c, d, bits[1..]); }
  }

  lemma {:induction false} GetAllSame(a: Cache, b: Cache, bits: seq<nat>)
    requires SameCache(a, b)
    ensures GetAll(a, bits).Ok? == GetAll(b, bits).Ok?
    ensures GetAll(a, bits).Ok? ==>
      SameCache(GetAll(a, bits).value.0, GetAll(b, bits).value.0) && GetAll(a, bits).value.1 == GetAll(b, bits).value.1
    decreases |bits|
  {
    if bits != [] && Live(a, bits[0]) {
      GetAllSame(Get(a, bits[0]), Get(b, bits[0]), bits[1..]);
    }
  }

  // ---------------------------------------------------------------------
  // Responses from the cache
  // ---------------------------------------------------------------------

  function HitList(all: Report, c: Cache): seq<nat> {
    Ascending(all.hits, |c.slots|)
  }

  /** The common hits are live bits of names queued everywhere. */
  lemma {:induction false} HitsLive(w: World, reports: seq<Report>, all: Report, sorted: seq<Sorted>)
    requires Round(w, reports, all, sorted)
    ensures forall b :: b in all.hits ==> Live(sorted[0].cache, b) && b in HitList(all, sorted[0].cache)
  {
    forall b | b in all.hits ensures Live(sorted[0].cache, b) && b in HitList(all, sorted[0].cache) {
      var n := HitNamed(w, reports, all, sorted, b);
      assert Split(w.ranks[0], all, sorted[0]);
    }
  }

  /** The response was cached for the name, and the bits agreed on the name. */
  ghost predicate FromCache(c: Cache, all: Report, r: Response) {
    var n := NameOf(r);
    n in c.bits && n in c.store && c.bits[n] in all.hits && r == c.store[n].response && r.names == [n]
  }

  lemma {:induction false} PeekedHits(w: World, reports: seq<Report>, all: Report, sorted: seq<Sorted>)
    requires Round(w, reports, all, sorted)
    ensures
      var c := sorted[0].cache;
      var p := PeekAll(c, HitList(all, c));
      && p.Ok? && Singles(p.value) && Distinct(AllNames(p.value))
      && (forall r :: r in p.value ==> FromCache(c, all, r))
      && (forall n :: n in AllNames(p.value) <==> n in c.bits && c.bits[n] in all.hits)
  {
    var c := sorted[0].cache;
    var bits := HitList(all, c);
    HitsLive(w, reports, all, sorted);
    PeekAllEach(c, bits);
    assert Split(w.ranks[0], all, sorted[0]);
    PeekedNames(c, all, bits, PeekAll(c, bits).value);
  }

  lemma {:induction false} PeekedOne(c: Cache, all: Report, b: nat)
    requires Valid(c) && Live(c, b) && b in all.hits
    ensures FromCache(c, all, Peek(c, b)) && NameOf(Peek(c, b)) in c.bits && c.bits[NameOf(Peek(c, b))] == b
  {
  }

  lemma {:induction false} PeekedNames(c: Cache, all: Report, bits: seq<nat>, rs: seq<Response>)
    requires Valid(c) && |rs| == |bits| && Distinct(bits)
    requires forall b :: b in bits <==> b in all.hits
    requires forall i :: 0 <= i < |bits| ==> Live(c, bits[i]) && rs[i] == Peek(c, bits[i])
    ensures Singles(rs) && Distinct(AllNames(rs))
    ensures forall r :: r in rs ==> FromCache(c, all, r)
    ensures forall n :: n in AllNames(rs) <==> n in c.bits && c.bits[n] in all.hits
  {
    assert forall n, k :: n in c.bits && k in c.bits && c.bits[n] == c.bits[k] ==> n == k;
    hide Valid;
    forall i | 0 <= i < |rs|
      ensures FromCache(c, all, rs[i]) && NameOf(rs[i]) in c.bits && c.bits[NameOf(rs[i])] == bits[i]
    {
      assert bits[i] in bits;
      PeekedOne(c, all, bits[i]);
    }
    SingleNames(rs);
    NamesOfBits(c.bits, all.hits, bits, AllNames(rs));
  }

  /** Different bits belong to different names. */
  lemma {:induction false} NamesOfBits(m: map<string, nat>, hits: set<nat>, bits: seq<nat>, names: seq<string>)
    requires |names| == |bits| && Distinct(bits) && (forall b :: b in bits <==> b in hits)
    requires forall n, k :: n in m && k in m && m[n] == m[k] ==> n == k
    requires forall i :: 0 <= i < |names| ==> names[i] in m && m[names[i]] == bits[i]
    ensures Distinct(names)
    ensures forall n :: n in names <==> n in m && m[n] in hits
  {
    forall n | n in m && m[n] in hits ensures n in names {
      var i :| 0 <= i < |bits| && bits[i] == m[n];
      assert names[i] == n;
    }
    forall i | 0 <= i < |names| ensures m[names[i]] in hits { assert bits[i] in bits; }
  }

  // ---------------------------------------------------------------------
  // All responses of a cycle
  // ---------------------------------------------------------------------

  /** Rank i can perform `r`, and can cache it if it is a reduction; and it sees the same tensor as rank 0. */
  ghost predicate Usable(w: World, sorted: seq<Sorted>, r: Response, i: nat)
    requires i < |w.ranks| == |sorted|
  {
    var n := NameOf(r);
    && n in w.ranks[i].table && n in w.ranks[0].table
    && |r.devices| == |w.ranks| && r.devices[i] == w.ranks[i].table[n].device
    && (Gathers(r) ==> |r.sizes| == |w.ranks| && GathersRows(r, w.ranks[0].table[n], w.ranks[i].table[n], i))
    && (Reduces(r.kind) ==>
      && SameTensor(w.ranks[0].table[n], w.ranks[i].table[n])
      && ReadyOne(sorted[i].cache, r, w.ranks[i].table, i, |w.ranks|))
  }

  /** Rank i contributes its own rows of the same kind that rank 0 contributes. */
  ghost predicate GathersRows(r: Response, p: TensorParams, q: TensorParams, i: nat) {
    && p.dtype == q.dtype && p.shape != [] && q.shape != [] && p.shape[1..] == q.shape[1..]
    && i < |r.sizes| && r.sizes[i] == q.shape[0]
  }

  ghost predicate Answers(w: World, sorted: seq<Sorted>, rs: seq<Response>)
    requires |sorted| == |w.ranks|
  {
    && Singles(rs) && Distinct(AllNames(rs))
    && (forall n :: n in AllNames(rs) <==> Everywhere(w, n))
    && (forall r, i :: r in rs && 0 <= i < |w.ranks| ==> Usable(w, sorted, r, i))
  }

  /** A request answered from the cache describes the tensor that was cached. */
  lemma {:induction false} CachedUsable(w: World, reports: seq<Report>, all: Report, sorted: seq<Sorted>, r: Response,
      i: nat)
    requires Round(w, reports, all, sorted) && i < |w.ranks| && FromCache(sorted[0].cache, all, r)
    ensures Usable(w, sorted, r, i)
  {
    var n, size := NameOf(r), |w.ranks|;
    CommonEverywhere(w, reports, all, sorted, n);
    CachedTensor(w, reports, all, sorted, n, 0);
    CachedTensor(w, reports, all, sorted, n, i);
    assert SameCache(sorted[0].cache, sorted[i].cache);
    assert SameEntry(sorted[0].cache.store[n], sorted[i].cache.store[n]);
    assert RankInv(w.ranks[i], i, w.coord, size) && Split(w.ranks[i], all, sorted[i]);
  }

  lemma {:induction false} CachedTensor(w: World, reports: seq<Report>, all: Report, sorted: seq<Sorted>, n: string,
      i: nat)
    requires Round(w, reports, all, sorted) && i < |w.ranks|
    requires n in sorted[0].cache.bits && n in Names(w.ranks[i].queue)
    ensures n in w.ranks[i].table && n in sorted[i].cache.store && n in w.ranks[i].cache.store
    ensures sorted[i].cache.store[n] == w.ranks[i].cache.store[n]
    ensures sorted[i].cache.store[n].params == w.ranks[i].table[n]
  {
    var q := w.ranks[i];
    assert RankInv(q, i, w.coord, |w.ranks|) && Split(q, all, sorted[i]) && SameCache(sorted[0].cache, sorted[i].cache);
    var m := NameOwner(q.queue, n);
    CombineIncludes(reports, i);
    assert Honest(q, reports[i]);
    assert q.cache.capacity > 0 by { assert n in q.cache.order; }
    CachedMatches(q, reports[i], all, sorted[i].cache, m);
  }

  lemma {:induction false} BuiltComplete(w: World, reports: seq<Report>, all: Report, sorted: seq<Sorted>, n: string)
    requires Round(w, reports, all, sorted) && AllIdle(w)
    requires n !in sorted[0].cache.bits && Everywhere(w, n)
    ensures Complete(Filed(w, sorted, n)) && |Filed(w, sorted, n)| == |w.ranks|
    ensures forall m :: m in Filed(w, sorted, n) ==>
      m.rank < |w.ranks| && n in w.ranks[m.rank].table && w.ranks[m.rank].table[n] == ParamsOf(m)
  {
    FiledAll(w, reports, all, sorted, n);
    FiledDistinct(w, reports, all, sorted, n);
    forall m | m in Filed(w, sorted, n)
      ensures m.rank < |w.ranks| && n in w.ranks[m.rank].table && w.ranks[m.rank].table[n] == ParamsOf(m)
    {
      FiledMembers(w, reports, all, sorted, n, m);
    }
  }

  /** Requests that agree describe the same tensor on every rank. */
  lemma {:induction false} AgreedUsable(w: World, sorted: seq<Sorted>, n: string, ms: seq<Request>, i: nat)
    requires |sorted| == |w.ranks| == |ms| && i < |ms| && Complete(ms) && Everywhere(w, n)
    requires forall m :: m in ms ==> n in w.ranks[m.rank].table && w.ranks[m.rank].table[n] == ParamsOf(m)
    requires n !in sorted[i].cache.bits
    ensures Construct(n, ms).names == [n] && Usable(w, sorted, Construct(n, ms), i)
  {
    ConstructMeaning(n, ms);
    var a := CompleteRank(ms, 0);
    var b := CompleteRank(ms, i);
    if Agreed(ms) { assert Fit(a, b); }
  }

  lemma {:induction false} BuiltUsable(w: World, reports: seq<Report>, all: Report, sorted: seq<Sorted>, n: string,
      i: nat)
    requires Round(w, reports, all, sorted) && AllIdle(w) && i < |w.ranks|
    requires n !in sorted[0].cache.bits && Everywhere(w, n)
    ensures Filed(w, sorted, n) != []
    ensures Construct(n, Filed(w, sorted, n)).names == [n] && Usable(w, sorted, Construct(n, Filed(w, sorted, n)), i)
  {
    BuiltComplete(w, reports, all, sorted, n);
    assert SameCache(sorted[0].cache, sorted[i].cache);
    AgreedUsable(w, sorted, n, Filed(w, sorted, n), i);
  }

  lemma {:induction false} AnswersJoin(w: World, sorted: seq<Sorted>, a: seq<Response>, b: seq<Response>)
    requires |sorted| == |w.ranks|
    requires Singles(a) && Singles(b) && Distinct(AllNames(a)) && Distinct(AllNames(b))
    requires forall n :: n in AllNames(a) ==> n !in AllNames(b)
    requires forall n :: n in AllNames(a) || n in AllNames(b) <==> Everywhere(w, n)
    requires forall r, i :: r in a && 0 <= i < |w.ranks| ==> Usable(w, sorted, r, i)
    requires forall r, i :: r in b && 0 <= i < |w.ranks| ==> Usable(w, sorted, r, i)
    ensures Answers(w, sorted, a + b)
  {
    AllNamesAppend(a, b);
    var x, y := AllNames(a), AllNames(b);
    forall i, j | 0 <= i < j < |x + y| ensures (x + y)[i] != (x + y)[j] {
      if i < |x| && |x| <= j { assert x[i] in x && y[j - |x|] in y; }
    }
  }

  lemma {:induction false} NamedInOrder(rs: seq<Response>, names: seq<string>)
    requires |rs| == |names| && forall i :: 0 <= i < |rs| ==> rs[i].names == [names[i]]
    ensures Singles(rs) && AllNames(rs) == names
  {
    SingleNames(rs);
  }

  lemma {:induction false} RespondNamed(k: Coordinator, ready: seq<string>)
    requires Distinct(ready) && forall n :: n in ready ==> RequestsFor(k, n) != []
    ensures
      var built := Respond(k, ready);
      && built.Ok? && Singles(built.value.1) && AllNames(built.value.1) == ready
      && (forall r :: r in built.value.1 ==>
        NameOf(r) in ready && RequestsFor(k, NameOf(r)) != [] && r == Construct(NameOf(r), RequestsFor(k, NameOf(r))))
  {
    RespondOk(k, ready);
    RespondEach(k, ready);
    var rs := Respond(k, ready).value.1;
    forall i | 0 <= i < |rs| ensures rs[i].names == [ready[i]] && ready[i] in ready {
      assert rs[i] == Construct(ready[i], RequestsFor(k, ready[i]));
    }
    NamedInOrder(rs, ready);
  }

  /** What the coordinator builds: a response for every name that is not cached and that everyone asked for. */
  lemma {:induction false} BuiltAnswers(w: World, reports: seq<Report>, all: Report, sorted: seq<Sorted>,
      tally: (Coordinator, seq<string>))
    requires Round(w, reports, all, sorted) && AllIdle(w)
    requires tally == Tally(w.coord, Concat(AllSent(sorted)), |w.ranks|)
    ensures
      var built := Respond(tally.0, tally.1);
      && built.Ok? && Singles(built.value.1) && Distinct(AllNames(built.value.1))
      && (forall n :: n in AllNames(built.value.1) <==> n !in sorted[0].cache.bits && Everywhere(w, n))
      && (forall r :: r in built.value.1 ==>
        NameOf(r) in tally.1 && Filed(w, sorted, NameOf(r)) != []
        && r == Construct(NameOf(r), Filed(w, sorted, NameOf(r))))
    ensures forall n :: n in tally.1 <==> n !in sorted[0].cache.bits && Everywhere(w, n)
  {
    ReadyNames(w, reports, all, sorted);
    forall n ensures RequestsFor(tally.0, n) == Filed(w, sorted, n) {
      TallyMessages(w.coord, Concat(AllSent(sorted)), |w.ranks|, n);
    }
    forall n | n in tally.1 ensures RequestsFor(tally.0, n) != [] {
      FiledAll(w, reports, all, sorted, n);
    }
    RespondNamed(tally.0, tally.1);
  }

  lemma {:induction false} SlowAnswers(w: World, reports: seq<Report>, all: Report, sorted: seq<Sorted>)
    requires Round(w, reports, all, sorted) && AllIdle(w)
    ensures
      var c := sorted[0].cache;
      var peeked := if c.capacity > 0 then PeekAll(c, HitList(all, c)) else Ok([]);
      var tally := Tally(w.coord, Concat(AllSent(sorted)), |w.ranks|);
      var built := Respond(tally.0, tally.1);
      peeked.Ok? && built.Ok? && Answers(w, sorted, peeked.value + built.value.1)
  {
    var c := sorted[0].cache;
    PeekedHits(w, reports, all, sorted);
    var a := PeekAll(c, HitList(all, c)).value;
    var tally := Tally(w.coord, Concat(AllSent(sorted)), |w.ranks|);
    BuiltAnswers(w, reports, all, sorted, tally);
    var b := Respond(tally.0, tally.1).value.1;
    forall r, i | r in a && 0 <= i < |w.ranks| ensures Usable(w, sorted, r, i) {
      CachedUsable(w, reports, all, sorted, r, i);
    }
    forall r, i | r in b && 0 <= i < |w.ranks| ensures Usable(w, sorted, r, i) {
      BuiltUsable(w, reports, all, sorted, NameOf(r), i);
    }
    forall n ensures n in AllNames(a) || n in AllNames(b) <==> Everywhere(w, n) {
      if n in c.bits { CommonTables(w, reports, all, sorted, n); }
    }
    AnswersJoin(w, sorted, a, b);
    if c.capacity == 0 { NoHits(w, reports, all, sorted); }
  }

  lemma {:induction false} TableQueued(w: World, i: nat, n: string)
    requires Inv(w) && AllIdle(w) && i < |w.ranks| && n !in w.coord.messages
    ensures n in w.ranks[i].table <==> n in Names(w.ranks[i].queue)
  {
    assert RankInv(w.ranks[i], i, w.coord, |w.ranks|);
  }

  /** A cached name is in all tables exactly when it is queued everywhere: the coordinator holds no request for it. */
  lemma {:induction false} CommonTables(w: World, reports: seq<Report>, all: Report, sorted: seq<Sorted>, n: string)
    requires Round(w, reports, all, sorted) && AllIdle(w) && n in sorted[0].cache.bits
    ensures sorted[0].cache.bits[n] in all.hits <==> Everywhere(w, n)
  {
    CommonEverywhere(w, reports, all, sorted, n);
    assert Split(w.ranks[0], all, sorted[0]);
    assert n !in w.coord.messages && Inv(w);
    hide Round, Inv, AllIdle, Split;
    forall i | 0 <= i < |w.ranks| ensures n in w.ranks[i].table <==> n in Names(w.ranks[i].queue) {
      TableQueued(w, i, n);
    }
  }

  lemma {:induction false} NoHits(w: World, reports: seq<Report>, all: Report, sorted: seq<Sorted>)
    requires Round(w, reports, all, sorted) && sorted[0].cache.capacity == 0
    ensures all.hits == {}
  {
    assert Split(w.ranks[0], all, sorted[0]) && Honest(w.ranks[0], reports[0]);
    CombineIncludes(reports, 0);
    assert all.hits <= reports[0].hits;
  }
}
