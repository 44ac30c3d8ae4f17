/** Tensors that are reduced once are answered from the cache when they are submitted again. */
module CachedCycles {
  import opened Messages
  import opened Sequences
  import opened CacheModel
  import opened Fusion
  import opened Negotiation
  import opened Invariants
  import opened CycleProofs
  import opened RoundProofs
  import opened SlowProofs
  import opened AnswerProofs
  import opened CycleTheorem
  import opened CachingProofs
  import opened Runs
  import opened Agreement

  /** The cache holds n with the attributes it has in the table. */
  ghost predicate Holds(c: Cache, n: string, t: Table) {
    n in c.bits && n in c.store && n in t && c.store[n].params == t[n]
  }

  /** The last `capacity` of these tensors are held by all ranks. */
  ghost predicate AllHold(v: World, w: World, names: seq<string>) {
    |v.ranks| == |w.ranks| && forall i, k ::
      (0 <= i < |w.ranks| && 0 <= k < |names| && |names| - k <= v.ranks[i].cache.capacity) ==>
        Holds(v.ranks[i].cache, names[k], w.ranks[i].table)
  }

  lemma {:induction false} SlowHolds(w: World, cfg: Config, reports: seq<Report>, all: Report, sorted: seq<Sorted>)
    requires Round(w, reports, all, sorted) && AllIdle(w) && w.ranks[0].cache.capacity > 0
    ensures SlowOutcome(w, sorted, all, cfg).Ok?
    ensures
      var o := SlowOutcome(w, sorted, all, cfg).value;
      o.lists != [] && AllHold(o.world, w, Reductions(o.lists[0].responses, |w.ranks|))
  {
    SlowCycle(w, cfg, reports, all, sorted);
    SlowParts(w, cfg, reports, all, sorted);
    var o, list, size := SlowOutcome(w, sorted, all, cfg).value, Coordinate(w, sorted, all, cfg).value.1, |w.ranks|;
    forall i | 0 <= i < size ensures Valid(sorted[i].cache) && sorted[i].cache.capacity > 0 {
      StoreSorted(w, reports, all, sorted, i);
    }
    assert o.lists[0].responses == list && Distinct(AllNames(list)) && |o.world.ranks| == size;
    hide Round, AllIdle, SlowOutcome, Coordinate, Valid, Served, Reductions, Holds, FinishSlow, Inv;
    forall i, k | 0 <= i < size && 0 <= k < |Reductions(list, size)|
      && |Reductions(list, size)| - k <= o.world.ranks[i].cache.capacity
      ensures Holds(o.world.ranks[i].cache, Reductions(list, size)[k], w.ranks[i].table)
    {
      FinishHolds(w.ranks[i], sorted[i], list, size, k);
    }
  }

  lemma {:induction false} FinishHolds(r: Rank, s: Sorted, list: seq<Response>, size: nat, k: nat)
    requires Valid(s.cache) && s.cache.capacity > 0 && FinishSlow(r, s, list, size).Ok?
    requires Distinct(AllNames(list)) && forall g :: g in list ==> g.names != []
    requires k < |Reductions(list, size)|
      && |Reductions(list, size)| - k <= FinishSlow(r, s, list, size).value.cache.capacity
    ensures Holds(FinishSlow(r, s, list, size).value.cache, Reductions(list, size)[k], r.table)
  {
    hide Valid, FinishSlow, Distinct, Reductions;
    FinishCaches(r, s, list, size);
    assert CachedWith(s.cache, FinishSlow(r, s, list, size).value.cache, list, r.table, Reductions(list, size)[k]);
  }

  /** Answering from the cache changes no entry. */
  lemma {:induction false} FastKeeps(r: Rank, s: Sorted, all: Report, cfg: Config)
    requires Valid(s.cache) && FinishFast(r, s, all, cfg).Ok?
    ensures
      var d := FinishFast(r, s, all, cfg).value.0.cache;
      Valid(d) && d.store == s.cache.store && d.capacity == s.cache.capacity
  {
    if all.hits != {} {
      GetAllPeeks(s.cache, HitList(all, s.cache));
      UpdateValid(GetAll(s.cache, HitList(all, s.cache)).value.0);
    }
  }

  lemma {:induction false} FastHoldsOne(w: World, cfg: Config, reports: seq<Report>, all: Report, sorted: seq<Sorted>,
      n: string, i: nat, d: Cache)
    requires Round(w, reports, all, sorted) && AllIdle(w) && TakesFastPath(w.ranks[0], all) && i < |w.ranks|
    requires Everywhere(w, n) && Valid(d) && d.store == sorted[i].cache.store
    ensures Holds(d, n, w.ranks[i].table)
  {
    FastNames(w, reports, all, sorted, n);
    CommonEverywhere(w, reports, all, sorted, n);
    CachedTensor(w, reports, all, sorted, n, i);
    hide Round, AllIdle, Everywhere;
  }

  lemma {:induction false} ReductionsNamed(list: seq<Response>, size: nat)
    ensures forall n :: n in Reductions(list, size) ==> n in AllNames(list)
  {
    if list != [] { ReductionsNamed(list[..|list| - 1], size); }
  }

  lemma {:induction false} FastOutcomeIs(w: World, cfg: Config, reports: seq<Report>, all: Report, sorted: seq<Sorted>)
    requires Round(w, reports, all, sorted) && AllIdle(w) && TakesFastPath(w.ranks[0], all)
    ensures FastOutcome(w, sorted, all, cfg).Ok?
    ensures
      var o := FastOutcome(w, sorted, all, cfg).value;
      && w.ranks != [] && |o.lists| == |o.world.ranks| == |w.ranks| == |sorted| && FastDone(w, sorted, all, cfg, o)
      && forall n :: n in Reductions(o.lists[0].responses, |w.ranks|) ==> Everywhere(w, n)
  {
    FastCycle(w, cfg, reports, all, sorted);
    FastParts(w, cfg, reports, all, sorted);
    hide Round, AllIdle, FastOutcome, FastDone, Everywhere, Reductions, RightFor;
    ReductionsNamed(FastOutcome(w, sorted, all, cfg).value.lists[0].responses, |w.ranks|);
  }

  lemma {:induction false} FastHolds(w: World, cfg: Config, reports: seq<Report>, all: Report, sorted: seq<Sorted>)
    requires Round(w, reports, all, sorted) && AllIdle(w) && TakesFastPath(w.ranks[0], all)
    ensures FastOutcome(w, sorted, all, cfg).Ok?
    ensures
      var o := FastOutcome(w, sorted, all, cfg).value;
      && o.lists != [] && AllHold(o.world, w, Reductions(o.lists[0].responses, |w.ranks|))
      && o.world.coord == w.coord
  {
    FastOutcomeIs(w, cfg, reports, all, sorted);
    hide Round, AllIdle, FinishFast, FastOutcome, Valid, Everywhere, Reductions, Holds, TakesFastPath;
    var o := FastOutcome(w, sorted, all, cfg).value;
    var names := Reductions(o.lists[0].responses, |w.ranks|);
    forall i, k | 0 <= i < |w.ranks| && 0 <= k < |names| && |names| - k <= o.world.ranks[i].cache.capacity
      ensures Holds(o.world.ranks[i].cache, names[k], w.ranks[i].table)
    {
      StoreSorted(w, reports, all, sorted, i);
      FastKeeps(w.ranks[i], sorted[i], all, cfg);
      assert names[k] in names;
      FastHoldsOne(w, cfg, reports, all, sorted, names[k], i, o.world.ranks[i].cache);
    }
  }

  /** After a cycle, on whichever path, every rank's cache holds the tensors just reduced by all ranks, at least the
      last `capacity` of them, with the attributes they have on that rank. */
  lemma {:induction false} CycleHolds(w: World, inputs: seq<Input>, cfg: Config)
    requires Inv(w) && AllIdle(w) && |inputs| == |w.ranks| && w.ranks != [] && w.ranks[0].cache.capacity > 0
    requires Negotiate(w, inputs, cfg).Ok?
    ensures
      var o := Negotiate(w, inputs, cfg).value;
      o.lists != [] && AllHold(o.world, w, Reductions(o.lists[0].responses, |w.ranks|))
  {
    CycleServes(w, inputs, cfg);
    var prepared, all, sorted := CycleStages(w, inputs, cfg);
    hide Round, AllIdle, Inv, FastOutcome, SlowOutcome, AllHold;
    if TakesFastPath(w.ranks[0], all) {
      FastHolds(w, cfg, Reports(prepared), all, sorted);
    } else {
      SlowHolds(w, cfg, Reports(prepared), all, sorted);
    }
  }

  // ---------------------------------------------------------------------
  // The next cycle
  // ---------------------------------------------------------------------

  /** Queued again as they were reduced, and not too many of them to be cached. */
  ghost predicate QueuedAgain(v: World, w: World, names: seq<string>) {
    && |v.ranks| == |w.ranks|
    && forall i :: 0 <= i < |v.ranks| ==>
      && |names| <= v.ranks[i].cache.capacity
      && forall m :: m in v.ranks[i].queue ==>
        m.name in names && m.name in w.ranks[i].table && ParamsOf(m) == w.ranks[i].table[m.name]
  }

  lemma {:induction false} HeldHits(v: World, w: World, names: seq<string>, i: nat)
    requires AllHold(v, w, names) && QueuedAgain(v, w, names) && i < |v.ranks|
    ensures !AnyUncached(v.ranks[i].queue, v.ranks[i].cache)
    ensures v.ranks[i].queue != [] ==> v.ranks[i].cache.capacity > 0
  {
    forall m | m in v.ranks[i].queue ensures StateOf(m, v.ranks[i].cache) == Hit {
      var k :| 0 <= k < |names| && names[k] == m.name;
      assert Holds(v.ranks[i].cache, names[k], w.ranks[i].table);
    }
    if v.ranks[i].queue != [] { assert v.ranks[i].queue[0] in v.ranks[i].queue; }
  }

  /** Nothing is overdue in any rank's stall check. */
  ghost predicate NothingStalled(v: World, inputs: seq<Input>, cfg: Config)
    requires |inputs| == |v.ranks|
  {
    forall i :: 0 <= i < |v.ranks| ==> Stalled(v.ranks[i], inputs[i], cfg) == {}
  }

  lemma {:induction false} NothingLookedUp(r: Rank, input: Input, cfg: Config)
    requires DistinctNames(r.queue) && Stalled(r, input, cfg) == {}
    ensures !LooksUpAbsent(r, input, cfg)
  {
    WatchedAfter(r.watched, r.queue, r.cache);
    hide Watch;
    var watched := Watch(r.watched, r.queue, r.cache);
    forall n | n in watched && cfg.watching && input.checkDue ensures n !in input.overdue {
      assert n !in watched * input.overdue;
    }
  }

  lemma {:induction false} CachedLookups(v: World, inputs: seq<Input>, cfg: Config)
    requires Inv(v) && |inputs| == |v.ranks| && AllCached(v, inputs, cfg)
    ensures !AnyLookupFails(v, inputs, cfg)
  {
    forall i | 0 <= i < |v.ranks| ensures !LooksUpAbsent(v.ranks[i], inputs[i], cfg) {
      assert RankInv(v.ranks[i], i, v.coord, |v.ranks|) && Stalled(v.ranks[i], inputs[i], cfg) == {};
      hide Inv, AllCached, LooksUpAbsent, Stalled;
      NothingLookedUp(v.ranks[i], inputs[i], cfg);
    }
  }

  /** A cycle that the coordinator has no part in serves all ranks. */
  lemma {:induction false} CachedCycle(v: World, inputs: seq<Input>, cfg: Config)
    requires Inv(v) && AllIdle(v) && |inputs| == |v.ranks| && AllCached(v, inputs, cfg)
    ensures
      var o := Negotiate(v, inputs, cfg);
      v.ranks != [] && o.Ok? && Served(v, o.value, cfg) && o.value.world.coord == v.coord
  {
    CachedLookups(v, inputs, cfg);
    CycleServes(v, inputs, cfg);
    var prepared, all, sorted := CycleStages(v, inputs, cfg);
    FastIff(v, inputs, cfg, prepared);
    hide Inv, AllIdle, Round, Negotiate, AllCached, FastOutcome, SlowOutcome, AnyLookupFails, TakesFastPath;
    FastHolds(v, cfg, Reports(prepared), all, sorted);
  }

  /** Tensors that were just reduced by all ranks are answered without the coordinator when they are queued again. */
  lemma {:induction false} AnsweredAgain(w: World, inputs: seq<Input>, cfg: Config, v: World, next: seq<Input>,
      again: Config)
    requires Inv(w) && AllIdle(w) && |inputs| == |w.ranks| && w.ranks != [] && w.ranks[0].cache.capacity > 0
    requires Negotiate(w, inputs, cfg).Ok? && Negotiate(w, inputs, cfg).value.lists != []
    requires Inv(v) && AllIdle(v) && |next| == |v.ranks| && NothingStalled(v, next, again)
    requires
      var o := Negotiate(w, inputs, cfg).value;
      && |v.ranks| == |o.world.ranks| == |w.ranks|
      && (forall i :: 0 <= i < |v.ranks| ==> v.ranks[i].cache == o.world.ranks[i].cache)
      && QueuedAgain(v, w, Reductions(o.lists[0].responses, |w.ranks|))
    ensures AllCached(v, next, again)
    ensures
      var o := Negotiate(v, next, again);
      o.Ok? && Served(v, o.value, again) && o.value.world.coord == v.coord
  {
    CycleHolds(w, inputs, cfg);
    CycleServes(w, inputs, cfg);
    var o := Negotiate(w, inputs, cfg).value;
    var names := Reductions(o.lists[0].responses, |w.ranks|);
    assert AllHold(v, w, names);
    KeptCapacity(w, inputs, cfg);
    hide Inv, AllIdle, Negotiate, Served, Stalled, AllHold, QueuedAgain, AnyUncached;
    forall i | 0 <= i < |v.ranks|
      ensures v.ranks[i].cache.capacity > 0 && !AnyUncached(v.ranks[i].queue, v.ranks[i].cache)
    {
      HeldHits(v, w, names, i);
    }
    CachedCycle(v, next, again);
  }

  lemma {:induction false} KeptCapacity(w: World, inputs: seq<Input>, cfg: Config)
    requires Inv(w) && AllIdle(w) && |inputs| == |w.ranks| && Negotiate(w, inputs, cfg).Ok?
    ensures
      var v := Negotiate(w, inputs, cfg).value.world;
      w.ranks != [] && |v.ranks| == |w.ranks| && forall i :: 0 <= i < |v.ranks| ==>
        v.ranks[i].cache.capacity == w.ranks[0].cache.capacity
  {
    CycleServes(w, inputs, cfg);
    var prepared, all, sorted := CycleStages(w, inputs, cfg);
    if TakesFastPath(w.ranks[0], all) {
      FastCycle(w, cfg, Reports(prepared), all, sorted);
    } else {
      SlowCycle(w, cfg, Reports(prepared), all, sorted);
    }
    var v := Negotiate(w, inputs, cfg).value.world;
    forall i | 0 <= i < |v.ranks| ensures v.ranks[i].cache.capacity == w.ranks[0].cache.capacity {
      StoreSorted(w, Reports(prepared), all, sorted, i);
    }
  }

  /** Submitting and performing leave the caches alone. */
  lemma {:induction false} RunKeepsCaches(w: World, events: seq<Event>, watching: bool)
    requires Inv(w) && forall k :: 0 <= k < |events| ==> events[k].Enqueue? || events[k].PerformAll?
    ensures Run(w, events, watching).Ok?
    ensures
      var v := Run(w, events, watching).value;
      Inv(v) && |v.ranks| == |w.ranks| && forall i :: 0 <= i < |v.ranks| ==> v.ranks[i].cache == w.ranks[i].cache
  {
    if events != [] {
      var n := |events| - 1;
      RunKeepsCaches(w, events[..n], watching);
      var before := Run(w, events[..n], watching).value;
      StepExact(before, events[n], watching);
      StepKeepsCaches(before, events[n], watching);
    }
  }

  lemma {:induction false} StepKeepsCaches(w: World, e: Event, watching: bool)
    requires w.ranks != [] && (e.Enqueue? || e.PerformAll?) && Apply(w, e, watching).Ok?
    ensures
      var v := Apply(w, e, watching).value;
      |v.ranks| == |w.ranks| && forall i :: 0 <= i < |v.ranks| ==> v.ranks[i].cache == w.ranks[i].cache
  {
  }

  /** One step of training after another: if, after any run, a cycle has been held and what was agreed on has been
      performed, and the ranks have then queued only tensors that this cycle reduced, as they were, and not more of them
      than the cache holds, the next cycle is answered from the caches without the coordinator. */
  lemma {:induction false} NextStep(size: nat, capacity: nat, events: seq<Event>, inputs: seq<Input>, cfg: Config,
      step: seq<Event>, next: seq<Input>, again: Config)
    requires size > 0 && Run(Start(size, capacity), events, cfg.watching).Ok?
    requires forall k :: 0 <= k < |step| ==> step[k].Enqueue? || step[k].PerformAll?
    ensures
      var w := Run(Start(size, capacity), events, cfg.watching).value;
      w.ranks != [] && (Held(w, inputs) && w.ranks[0].cache.capacity > 0 && Negotiate(w, inputs, cfg).Ok? ==>
        var o := Negotiate(w, inputs, cfg).value;
        var v := Run(o.world, step, cfg.watching);
        && v.Ok? && o.lists != []
        && (Held(v.value, next) && NothingStalled(v.value, next, again)
            && QueuedAgain(v.value, w, Reductions(o.lists[0].responses, |w.ranks|)) ==>
          && AllCached(v.value, next, again) && v.value.ranks != []
          && var p := Negotiate(v.value, next, again);
             p.Ok? && Served(v.value, p.value, again) && p.value.world.coord == v.value.coord))
  {
    RunExact(size, capacity, events, cfg.watching);
    var w := Run(Start(size, capacity), events, cfg.watching).value;
    assert w.ranks != [];
    if Held(w, inputs) && w.ranks[0].cache.capacity > 0 && Negotiate(w, inputs, cfg).Ok? {
      CycleServes(w, inputs, cfg);
      var o := Negotiate(w, inputs, cfg).value;
      RunKeepsCaches(o.world, step, cfg.watching);
      var v := Run(o.world, step, cfg.watching).value;
      hide Run, Inv, Negotiate, AllCached, QueuedAgain, NothingStalled, Reductions;
      if Held(v, next) && NothingStalled(v, next, again)
        && QueuedAgain(v, w, Reductions(o.lists[0].responses, |w.ranks|))
      {
        AnsweredAgain(w, inputs, cfg, v, next, again);
      }
    }
  }
}
