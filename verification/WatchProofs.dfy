/** Which cached tensors are watched, since when, and what becomes of those that are watched for too long. */
module WatchProofs {
  import opened Messages
  import opened CacheModel
  import opened Negotiation
  import opened Invariants
  import opened CycleProofs
  import opened RoundProofs
  import opened SlowProofs
  import opened CycleTheorem
  import Operations
  import opened Controllers

  /** After the queue has been looked through, a name is watched exactly if it is queued as it is cached, or was watched
      and is not queued. */
  lemma {:induction false} WatchIs(watched: set<string>, queue: seq<Request>, c: Cache, n: string)
    requires DistinctNames(queue)
    ensures n in Watch(watched, queue, c) <==>
      if n in Names(queue) then QueuedAsCached(queue, c, n) else n in watched
  {
    if queue != [] {
      QueuedLast(queue, c, n);
      WatchIs(watched, queue[..|queue| - 1], c, n);
      hide QueuedAsCached, Names, StateOf;
    }
  }

  /** After the round, a name is still watched exactly if it was and, if it is queued, waits for other ranks. */
  lemma {:induction false} UnwatchIs(watched: set<string>, queue: seq<Request>, c: Cache, hits: set<nat>, n: string)
    requires DistinctNames(queue)
    ensures n in Unwatch(watched, queue, c, hits) <==>
      n in watched && (n in Names(queue) ==> QueuedAsCached(queue, c, n) && c.bits[n] !in hits)
  {
    if queue != [] {
      QueuedLast(queue, c, n);
      UnwatchIs(watched, queue[..|queue| - 1], c, hits, n);
    }
  }

  // ---------------------------------------------------------------------
  // Stalled tensors
  // ---------------------------------------------------------------------

  /** A queued tensor that is overdue when stalls are checked for does not stay cached. */
  lemma {:induction false} OverdueGivenUp(w: World, inputs: seq<Input>, cfg: Config, i: nat, n: string)
    requires Inv(w) && |inputs| == |w.ranks| && i < |w.ranks|
    requires cfg.watching && inputs[i].checkDue && n in inputs[i].overdue && n in Names(w.ranks[i].queue)
    ensures !Operations.StaysCached(w, inputs, cfg, n)
  {
    var r := w.ranks[i];
    assert RankInv(r, i, w.coord, |w.ranks|) && SameCache(w.ranks[0].cache, r.cache);
    var m := NameOwner(r.queue, n);
    if n in r.cache.bits {
      WatchIs(r.watched, r.queue, r.cache, n);
      hide Inv, RankInv, SameCache, Watch;
      assert Operations.GivesUp(r, inputs[i], cfg, n);
    }
  }

  lemma {:induction false} UncachedSlow(w: World, reports: seq<Report>, all: Report, sorted: seq<Sorted>, n: string,
      i: nat)
    requires Round(w, reports, all, sorted) && AllIdle(w) && i < |w.ranks|
    requires n in w.ranks[i].cache.bits && n !in sorted[0].cache.bits
    ensures !TakesFastPath(w.ranks[0], all)
  {
    SameBits(w, i);
    if TakesFastPath(w.ranks[0], all) { FastSorted(w, reports, all, sorted, 0); }
  }

  lemma {:induction false} SlowSettled(w: World, cfg: Config, reports: seq<Report>, all: Report, sorted: seq<Sorted>)
    requires Round(w, reports, all, sorted) && AllIdle(w)
    ensures SlowOutcome(w, sorted, all, cfg).Ok? && Inv(SlowOutcome(w, sorted, all, cfg).value.world)
    ensures Settles(w, sorted, SlowOutcome(w, sorted, all, cfg).value.world.coord)
  {
    SlowCycle(w, cfg, reports, all, sorted);
    SlowParts(w, cfg, reports, all, sorted);
    var rs := SlowCoordinates(w, cfg, reports, all, sorted);
  }

  /** A cached tensor that some rank has waited for too long leaves all caches, and the coordinator gets the requests of
      all ranks that have asked for it; so it can report the others. */
  lemma {:induction false} StalledHandedOver(w: World, inputs: seq<Input>, cfg: Config, i: nat, n: string)
    requires Inv(w) && AllIdle(w) && |inputs| == |w.ranks| && i < |w.ranks| && Negotiate(w, inputs, cfg).Ok?
    requires cfg.watching && inputs[i].checkDue && n in inputs[i].overdue
    requires n in Names(w.ranks[i].queue) && n in w.ranks[i].cache.bits && !Everywhere(w, n)
    ensures
      var v := Negotiate(w, inputs, cfg).value.world;
      && (forall j :: 0 <= j < |v.ranks| ==> n !in v.ranks[j].cache.bits)
      && forall j :: 0 <= j < |w.ranks| && n in w.ranks[j].table ==> j in Waiters(v.coord, n)
  {
    CycleServes(w, inputs, cfg);
    var prepared, all, sorted := CycleStages(w, inputs, cfg);
    OverdueGivenUp(w, inputs, cfg, i, n);
    Operations.StaysSorted(w, inputs, cfg, prepared, all, sorted, n);
    UncachedSlow(w, Reports(prepared), all, sorted, n, i);
    SlowSettled(w, cfg, Reports(prepared), all, sorted);
    var v := Negotiate(w, inputs, cfg).value.world;
    assert n in w.ranks[i].table by { assert RankInv(w.ranks[i], i, w.coord, |w.ranks|); }
    hide *;
    HandedOver(w, Reports(prepared), all, sorted, v, n, i);
  }

  lemma {:induction false} HandedOver(w: World, reports: seq<Report>, all: Report, sorted: seq<Sorted>, v: World,
      n: string, i: nat)
    requires Round(w, reports, all, sorted) && AllIdle(w) && Inv(v) && Settles(w, sorted, v.coord)
    requires n !in sorted[0].cache.bits && !Everywhere(w, n) && i < |w.ranks| && n in w.ranks[i].table
    ensures forall j :: 0 <= j < |v.ranks| ==> n !in v.ranks[j].cache.bits
    ensures forall j :: 0 <= j < |w.ranks| && n in w.ranks[j].table ==> j in Waiters(v.coord, n)
  {
    assert RequestsFor(v.coord, n) == Filed(w, sorted, n);
    hide Inv, Round, AllIdle, Filed, Everywhere;
    forall j | 0 <= j < |w.ranks| && n in w.ranks[j].table ensures j in Waiters(v.coord, n) {
      AskedIsFiled(w, reports, all, sorted, n, j);
    }
    assert i in Waiters(v.coord, n);
    FiledNowhereCached(v, n);
  }

  lemma {:induction false} FiledNowhereCached(v: World, n: string)
    requires Inv(v) && RequestsFor(v.coord, n) != []
    ensures forall j :: 0 <= j < |v.ranks| ==> n !in v.ranks[j].cache.bits
  {
    forall j | 0 <= j < |v.ranks| ensures n !in v.ranks[j].cache.bits { SameBits(v, j); }
  }
}
