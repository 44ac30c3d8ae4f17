/** What the combined bits mean to all ranks together. */
module RoundProofs {
  import opened Messages
  import opened Sequences
  import opened CacheModel
  import opened Negotiation
  import opened Invariants
  import opened CycleProofs

  /** A cycle that has got past its bitwise collectives. */
  ghost predicate Round(w: World, reports: seq<Report>, all: Report, sorted: seq<Sorted>) {
    && Inv(w)
    && |reports| == |w.ranks| && |sorted| == |w.ranks|
    && all == Combine(reports)
    && (forall i :: 0 <= i < |w.ranks| ==> Honest(w.ranks[i], reports[i]))
    && (forall i :: 0 <= i < |w.ranks| ==> Split(w.ranks[i], all, sorted[i]))
    && (forall i :: 0 <= i < |w.ranks| ==> SameCache(sorted[0].cache, sorted[i].cache))
  }

  ghost predicate Honest(r: Rank, p: Report) {
    if r.cache.capacity > 0 then Reported(r, p) else p.hits == {} && p.invalid == {}
  }

  lemma {:induction false} CombineIncludes(reports: seq<Report>, i: nat)
    requires i < |reports|
    ensures Includes(Combine(reports), reports[i])
  {
  }

  /** All ranks look up the same bit for a name. */
  lemma {:induction false} SameBits(w: World, i: nat)
    requires Inv(w) && i < |w.ranks|
    ensures w.ranks[i].cache.bits == w.ranks[0].cache.bits
    ensures w.ranks[i].cache.slots == w.ranks[0].cache.slots
    ensures w.ranks[i].cache.capacity == w.ranks[0].cache.capacity
  {
  }

  lemma {:induction false} RoundFrom(w: World, inputs: seq<Input>, cfg: Config, prepared: seq<(Report, set<string>)>,
      reports: seq<Report>, all: Report, sorted: seq<Sorted>)
    requires Inv(w) && |inputs| == |prepared| == |reports| == |sorted| == |w.ranks|
    requires forall i :: 0 <= i < |w.ranks| ==>
      Prepare(w.ranks[i], inputs[i], cfg, i == 0) == Ok(prepared[i]) && reports[i] == prepared[i].0
    requires all == Combine(reports)
    requires forall i :: 0 <= i < |w.ranks| ==> SortOut(w.ranks[i], prepared[i].1, all, cfg) == Ok(sorted[i])
    ensures Round(w, reports, all, sorted)
  {
    forall i | 0 <= i < |w.ranks|
      ensures Honest(w.ranks[i], reports[i]) && Split(w.ranks[i], all, sorted[i])
        && SameCache(sorted[0].cache, sorted[i].cache)
    {
      RankSplit(w.ranks[i], i, w.coord, |w.ranks|, inputs[i], prepared[i], all, cfg, reports);
      SortedSame(w.ranks[0], w.ranks[i], prepared[0].1, prepared[i].1, all, cfg);
    }
  }

  lemma {:induction false} RankSplit(r: Rank, id: nat, k: Coordinator, size: nat, input: Input, prepared: (Report,
      set<string>), all: Report, cfg: Config, reports: seq<Report>)
    requires RankInv(r, id, k, size) && Prepare(r, input, cfg, id == 0) == Ok(prepared)
    requires id < |reports| && reports[id] == prepared.0 && all == Combine(reports)
    ensures Honest(r, prepared.0)
    ensures SortOut(r, prepared.1, all, cfg).Ok? && Split(r, all, SortOut(r, prepared.1, all, cfg).value)
  {
    if r.cache.capacity == 0 {
      SortOutEmpty(r, prepared.1, all, cfg);
    } else {
      PrepareReports(r, input, cfg, id == 0);
      CombineIncludes(reports, id);
      SortOutSplits(r, prepared.1, prepared.0, all, cfg);
    }
  }

  lemma {:induction false} SortedSame(a: Rank, b: Rank, wa: set<string>, wb: set<string>, all: Report, cfg: Config)
    requires SameCache(a.cache, b.cache)
    requires SortOut(a, wa, all, cfg).Ok? && SortOut(b, wb, all, cfg).Ok?
    ensures SameCache(SortOut(a, wa, all, cfg).value.cache, SortOut(b, wb, all, cfg).value.cache)
  {
    EraseAllSame(a.cache, b.cache, Ascending(all.invalid, |a.cache.slots|));
  }

  /** A bit hit by all ranks is the bit of one cached name, which every rank has queued. */
  lemma {:induction false} HitNamed(w: World, reports: seq<Report>, all: Report, sorted: seq<Sorted>, b: nat)
    returns (n: string)
    requires Round(w, reports, all, sorted) && b in all.hits
    ensures n in sorted[0].cache.bits && sorted[0].cache.bits[n] == b
    ensures forall i :: 0 <= i < |w.ranks| ==> n in Names(w.ranks[i].queue)
    ensures w.ranks[0].cache.capacity > 0
  {
    assert b in reports[0].hits;
    assert RankInv(w.ranks[0], 0, w.coord, |w.ranks|) && Honest(w.ranks[0], reports[0]);
    var m0 :| m0 in w.ranks[0].queue && StateOf(m0, w.ranks[0].cache) == Hit && w.ranks[0].cache.bits[m0.name] == b;
    n := m0.name;
    assert b !in all.invalid;
    assert Split(w.ranks[0], all, sorted[0]);
    forall i | 0 <= i < |w.ranks| ensures n in Names(w.ranks[i].queue) {
      HitQueued(w, reports, all, i, n);
    }
  }

  lemma {:induction false} HitQueued(w: World, reports: seq<Report>, all: Report, i: nat, n: string)
    requires Inv(w) && |reports| == |w.ranks| && all == Combine(reports) && i < |w.ranks|
    requires Honest(w.ranks[i], reports[i])
    requires n in w.ranks[0].cache.bits && w.ranks[0].cache.bits[n] in all.hits
    ensures n in Names(w.ranks[i].queue)
  {
    SameBits(w, i);
    var c, b := w.ranks[i].cache, w.ranks[0].cache.bits[n];
    assert b in reports[i].hits;
    assert RankInv(w.ranks[i], i, w.coord, |w.ranks|);
    var m :| m in w.ranks[i].queue && StateOf(m, c) == Hit && c.bits[m.name] == b;
    assert c.slots[b] == Some(m.name) && c.slots[b] == Some(n);
  }

  lemma {:induction false} HitSlot(c: Cache, b: nat, x: string, n: string)
    requires Valid(c) && x in c.bits && n in c.bits && c.bits[x] == b && c.bits[n] == b
    ensures x == n
  {
    assert c.slots[b] == Some(x) && c.slots[b] == Some(n);
  }

  /** A cached name is answered from the cache exactly when every rank has queued it. */
  lemma {:induction false} CommonEverywhere(w: World, reports: seq<Report>, all: Report, sorted: seq<Sorted>, n: string)
    requires Round(w, reports, all, sorted) && n in sorted[0].cache.bits
    ensures sorted[0].cache.bits[n] in all.hits <==> forall i :: 0 <= i < |w.ranks| ==> n in Names(w.ranks[i].queue)
  {
    var b := sorted[0].cache.bits[n];
    if b in all.hits {
      var x := HitNamed(w, reports, all, sorted, b);
      assert Split(w.ranks[0], all, sorted[0]);
      HitSlot(sorted[0].cache, b, x, n);
    }
    if forall i :: 0 <= i < |w.ranks| ==> n in Names(w.ranks[i].queue) {
      forall i | 0 <= i < |w.ranks| ensures b in reports[i].hits && b !in reports[i].invalid {
        QueuedHits(w, reports, all, sorted, i, n);
      }
      InAllReports(reports, b);
    }
  }

  lemma {:induction false} InAllReports(reports: seq<Report>, b: nat)
    requires reports != [] && forall i :: 0 <= i < |reports| ==> b in reports[i].hits && b !in reports[i].invalid
    ensures b in Combine(reports).hits
  {
    assert b in reports[0].hits;
  }

  lemma {:induction false} QueuedHits(w: World, reports: seq<Report>, all: Report, sorted: seq<Sorted>, i: nat,
      n: string)
    requires Round(w, reports, all, sorted) && n in sorted[0].cache.bits && i < |w.ranks|
    requires n in Names(w.ranks[i].queue)
    ensures sorted[0].cache.bits[n] in reports[i].hits && sorted[0].cache.bits[n] !in reports[i].invalid
  {
    var r, c := w.ranks[i], sorted[i].cache;
    assert SameCache(sorted[0].cache, c) && Split(r, all, sorted[i]) && RankInv(r, i, w.coord, |w.ranks|);
    var m := NameOwner(r.queue, n);
    CombineIncludes(reports, i);
    assert Honest(r, reports[i]);
    CachedMatches(r, reports[i], all, c, m);
    var b := c.bits[n];
    assert b !in Ascending(all.invalid, |r.cache.slots|);
    assert b < |r.cache.slots|;
  }
}
