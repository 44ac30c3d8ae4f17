/** Cycles in which some rank has something new to tell the coordinator. */
module SlowProofs {
  import opened Messages
  import opened Sequences
  import opened Fusion
  import opened Negotiation
  import opened Invariants
  import opened CycleProofs
  import opened RoundProofs
  import opened TallyProofs

  /** Every agreed response has been performed. */
  ghost predicate AllIdle(w: World) {
    forall i :: 0 <= i < |w.ranks| ==> w.ranks[i].pending == []
  }

  /** Every rank has an outstanding request for `n`. */
  ghost predicate Everywhere(w: World, n: string) {
    forall i :: 0 <= i < |w.ranks| ==> n in w.ranks[i].table
  }

  function AllSent(sorted: seq<Sorted>): seq<seq<Request>> {
    seq(|sorted|, i requires 0 <= i < |sorted| => sorted[i].sent)
  }

  lemma {:induction false} SentByRank(w: World, reports: seq<Report>, all: Report, sorted: seq<Sorted>)
    requires Round(w, reports, all, sorted)
    ensures ByRank(AllSent(sorted))
  {
    forall i | 0 <= i < |sorted|
      ensures DistinctNames(sorted[i].sent) && forall m :: m in sorted[i].sent ==> m.rank == i
    {
      assert Split(w.ranks[i], all, sorted[i]) && RankInv(w.ranks[i], i, w.coord, |w.ranks|);
    }
  }

  /** All requests the coordinator knows for `n` once the messages are in. */
  function Filed(w: World, sorted: seq<Sorted>, n: string): seq<Request> {
    RequestsFor(w.coord, n) + For(Concat(AllSent(sorted)), n)
  }

  lemma {:induction false} FiledMembers(w: World, reports: seq<Report>, all: Report, sorted: seq<Sorted>, n: string,
      m: Request)
    requires Round(w, reports, all, sorted) && m in Filed(w, sorted, n)
    ensures m.name == n && m.rank < |w.ranks|
    ensures n in w.ranks[m.rank].table && w.ranks[m.rank].table[n] == ParamsOf(m)
    ensures m in RequestsFor(w.coord, n) || m in sorted[m.rank].sent
  {
    if m in RequestsFor(w.coord, n) {
      assert FiledInv(w, n);
    } else {
      SentByRank(w, reports, all, sorted);
      ConcatRanks(AllSent(sorted), n);
      assert Split(w.ranks[m.rank], all, sorted[m.rank]) && RankInv(w.ranks[m.rank], m.rank, w.coord, |w.ranks|);
    }
  }

  /** No rank is counted twice. */
  lemma {:induction false} FiledDistinct(w: World, reports: seq<Report>, all: Report, sorted: seq<Sorted>, n: string)
    requires Round(w, reports, all, sorted)
    ensures DistinctRanks(Filed(w, sorted, n))
  {
    SentByRank(w, reports, all, sorted);
    ConcatRanks(AllSent(sorted), n);
    var a, b := RequestsFor(w.coord, n), For(Concat(AllSent(sorted)), n);
    if n in w.coord.messages { assert FiledInv(w, n); }
    forall x, y | x in a && y in b ensures x.rank != y.rank {
      var r := y.rank;
      assert Split(w.ranks[r], all, sorted[r]) && RankInv(w.ranks[r], r, w.coord, |w.ranks|);
      assert n in Names(w.ranks[r].queue);
      assert r !in Waiters(w.coord, n);
    }
    AppendRanks(a, b);
  }

  lemma {:induction false} AppendRanks(a: seq<Request>, b: seq<Request>)
    requires DistinctRanks(a) && DistinctRanks(b) && forall x, y :: x in a && y in b ==> x.rank != y.rank
    ensures DistinctRanks(a + b)
  {
    forall i, j | 0 <= i < j < |a + b| ensures (a + b)[i].rank != (a + b)[j].rank {
      if i < |a| && |a| <= j { assert a[i] in a && b[j - |a|] in b; }
    }
  }

  lemma {:induction false} RankOwner(ms: seq<Request>, i: nat) returns (m: Request)
    requires i in RankSet(ms)
    ensures m in ms && m.rank == i
  {
    m :| m in ms && m.rank == i;
  }

  lemma {:induction false} FiledFromAll(w: World, reports: seq<Report>, all: Report, sorted: seq<Sorted>, n: string)
    requires Round(w, reports, all, sorted) && RankSet(Filed(w, sorted, n)) == Below(|w.ranks|)
    ensures Filed(w, sorted, n) != [] && Everywhere(w, n)
  {
    var ms := Filed(w, sorted, n);
    assert |w.ranks| > 0;
    hide Round, Filed, RankSet;
    var first := RankOwner(ms, 0);
    forall i | 0 <= i < |w.ranks| ensures n in w.ranks[i].table {
      var m := RankOwner(ms, i);
      FiledMembers(w, reports, all, sorted, n, m);
    }
  }

  lemma {:induction false} AllAreFiled(w: World, reports: seq<Report>, all: Report, sorted: seq<Sorted>, n: string)
    requires Round(w, reports, all, sorted) && AllIdle(w) && n !in sorted[0].cache.bits && Everywhere(w, n)
    requires forall m :: m in Filed(w, sorted, n) ==> m.rank < |w.ranks|
    ensures RankSet(Filed(w, sorted, n)) == Below(|w.ranks|)
  {
    assert |sorted| == |w.ranks|;
    hide Round, Filed, AllIdle;
    forall i | 0 <= i < |w.ranks| ensures i in RankSet(Filed(w, sorted, n)) {
      AskedIsFiled(w, reports, all, sorted, n, i);
    }
  }

  /** All ranks are among those filed exactly when the name is not cached and everyone asked for it. */
  lemma {:induction false} FiledAll(w: World, reports: seq<Report>, all: Report, sorted: seq<Sorted>, n: string)
    requires Round(w, reports, all, sorted) && AllIdle(w)
    ensures |Filed(w, sorted, n)| <= |w.ranks|
    ensures |Filed(w, sorted, n)| == |w.ranks| <==> n !in sorted[0].cache.bits && Everywhere(w, n)
  {
    assert |sorted| == |w.ranks| > 0;
    hide Round, Filed, AllIdle, Everywhere, RankSet, Below;
    var ms, size := Filed(w, sorted, n), |w.ranks|;
    FiledDistinct(w, reports, all, sorted, n);
    forall m | m in ms ensures m.rank < size { FiledMembers(w, reports, all, sorted, n, m); }
    AllRanks(ms, size);
    if RankSet(ms) == Below(size) {
      FiledFromAll(w, reports, all, sorted, n);
      FiledUncached(w, reports, all, sorted, n);
    }
    if n !in sorted[0].cache.bits && Everywhere(w, n) { AllAreFiled(w, reports, all, sorted, n); }
  }

  lemma {:induction false} FiledUncached(w: World, reports: seq<Report>, all: Report, sorted: seq<Sorted>, n: string)
    requires Round(w, reports, all, sorted) && Filed(w, sorted, n) != []
    ensures n !in sorted[0].cache.bits
  {
    var m := Filed(w, sorted, n)[0];
    assert m in Filed(w, sorted, n);
    FiledMembers(w, reports, all, sorted, n, m);
    assert Split(w.ranks[0], all, sorted[0]);
    if m !in RequestsFor(w.coord, n) {
      assert Split(w.ranks[m.rank], all, sorted[m.rank]) && SameCache(sorted[0].cache, sorted[m.rank].cache);
    }
  }

  lemma {:induction false} AskedIsFiled(w: World, reports: seq<Report>, all: Report, sorted: seq<Sorted>, n: string,
      i: nat)
    requires Round(w, reports, all, sorted) && AllIdle(w) && i < |w.ranks|
    requires n !in sorted[0].cache.bits && n in w.ranks[i].table
    ensures i in RankSet(Filed(w, sorted, n))
  {
    var r := w.ranks[i];
    assert RankInv(r, i, w.coord, |w.ranks|) && Split(r, all, sorted[i]) && SameCache(sorted[0].cache, sorted[i].cache);
    assert n !in AllNames(r.pending);
    if i in Waiters(w.coord, n) {
      var m :| m in RequestsFor(w.coord, n) && m.rank == i;
      assert m in Filed(w, sorted, n);
    } else {
      var m := NameOwner(r.queue, n);
      assert m in sorted[i].sent;
      ConcatMembers(AllSent(sorted));
      assert m in AllSent(sorted)[i];
      assert m in Filed(w, sorted, n);
    }
  }

  /** The names the coordinator finds ready. */
  lemma {:induction false} ReadyNames(w: World, reports: seq<Report>, all: Report, sorted: seq<Sorted>)
    requires Round(w, reports, all, sorted) && AllIdle(w)
    ensures
      var ready := Tally(w.coord, Concat(AllSent(sorted)), |w.ranks|).1;
      Distinct(ready) && forall n :: n in ready <==> n !in sorted[0].cache.bits && Everywhere(w, n)
  {
    var ms, size := Concat(AllSent(sorted)), |w.ranks|;
    forall n ensures |RequestsFor(w.coord, n)| < size && |RequestsFor(w.coord, n)| + |For(ms, n)| <= size {
      FiledAll(w, reports, all, sorted, n);
      if n in w.coord.messages { assert FiledInv(w, n); }
    }
    TallyReady(w.coord, ms, size);
    forall n ensures n in Tally(w.coord, ms, size).1 <==> n !in sorted[0].cache.bits && Everywhere(w, n) {
      FiledAll(w, reports, all, sorted, n);
      if |RequestsFor(w.coord, n)| + |For(ms, n)| == size {
        if n !in Names(ms) { ForNone(ms, n); }
      }
    }
  }

  /** Ready names have a request from each rank, all ranks in range. */
  ghost predicate InRange(k: Coordinator, ready: seq<string>, size: nat) {
    forall n :: n in ready ==> |RequestsFor(k, n)| == size && forall m :: m in RequestsFor(k, n) ==> m.rank < size
  }

  /** The coordinator builds responses from complete sets of requests only: every rank's place exists. */
  lemma {:induction false} ReadyComplete(w: World, reports: seq<Report>, all: Report, sorted: seq<Sorted>)
    requires Round(w, reports, all, sorted) && AllIdle(w)
    ensures
      var tally := Tally(w.coord, Concat(AllSent(sorted)), |w.ranks|);
      InRange(tally.0, tally.1, |w.ranks|)
  {
    hide Round, AllIdle, Everywhere, Tally;
    var tally := Tally(w.coord, Concat(AllSent(sorted)), |w.ranks|);
    ReadyNames(w, reports, all, sorted);
    forall n | n in tally.1
      ensures |RequestsFor(tally.0, n)| == |w.ranks| && forall m :: m in RequestsFor(tally.0, n) ==> m.rank < |w.ranks|
    {
      TallyMessages(w.coord, Concat(AllSent(sorted)), |w.ranks|, n);
      FiledAll(w, reports, all, sorted, n);
      assert RequestsFor(tally.0, n) == Filed(w, sorted, n);
      forall m | m in RequestsFor(tally.0, n)
        ensures m.rank < |w.ranks|
      {
        FiledMembers(w, reports, all, sorted, n, m);
      }
    }
  }
}
