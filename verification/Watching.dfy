/**
  When the stall inspector's lookups cannot fail: as long as the cache is not turned on while names
  are watched, only queued names are watched, and each of those is looked at before any stall check.
 */
module Watching {
  import opened Messages
  import opened CacheModel
  import opened Negotiation
  import opened Invariants
  import opened CycleProofs
  import opened RoundProofs
  import opened SlowProofs
  import opened CycleTheorem
  import opened Runs

  ghost predicate WatchInv(r: Rank, watching: bool) {
    watching && r.cache.capacity > 0 ==> r.watched <= Names(r.queue)
  }

  ghost predicate AllWatch(w: World, watching: bool) {
    forall i :: 0 <= i < |w.ranks| ==> WatchInv(w.ranks[i], watching)
  }

  ghost predicate NothingWatched(w: World) {
    forall i :: 0 <= i < |w.ranks| ==> w.ranks[i].watched == {}
  }

  lemma {:induction false} NothingAbsent(w: World, inputs: seq<Input>, cfg: Config)
    requires |inputs| == |w.ranks| && AllWatch(w, cfg.watching)
    ensures !AnyLookupFails(w, inputs, cfg)
  {
    forall i | 0 <= i < |w.ranks| ensures !LooksUpAbsent(w.ranks[i], inputs[i], cfg) {
      assert WatchInv(w.ranks[i], cfg.watching);
    }
  }

  // ---------------------------------------------------------------------
  // Single steps
  // ---------------------------------------------------------------------

  lemma {:induction false} UnwatchKept(watched: set<string>, queue: seq<Request>, c: Cache, hits: set<nat>)
    requires DistinctNames(queue)
    ensures forall n :: n in Unwatch(watched, queue, c, hits) ==> n in watched
    ensures forall n :: n in Unwatch(watched, queue, c, hits) && n in Names(queue) ==> n in Names(Kept(queue, c, hits))
  {
    if queue != [] {
      var front, m := queue[..|queue| - 1], queue[|queue| - 1];
      NamesSplit(queue);
      FrontDistinct(queue);
      UnwatchKept(watched, front, c, hits);
      KeptMembers(queue, c, hits);
      forall n | n in Unwatch(watched, queue, c, hits) && n in Names(queue) ensures n in Names(Kept(queue, c, hits)) {
        if n == m.name {
          assert m in Kept(queue, c, hits);
        } else {
          assert n in Unwatch(watched, front, c, hits) && n in Names(front);
          KeptMembers(front, c, hits);
          var x := NameOwner(Kept(front, c, hits), n);
          assert x in Kept(queue, c, hits);
        }
      }
    }
  }

  /** A rank goes on watching names that it keeps in its queue; without a cache it watches what it watched. */
  lemma {:induction false} RankWatches(r: Rank, input: Input, cfg: Config, isCoordinator: bool, all: Report)
    requires DistinctNames(r.queue) && WatchInv(r, cfg.watching) && Prepare(r, input, cfg, isCoordinator).Ok?
    ensures
      var s := SortOut(r, Prepare(r, input, cfg, isCoordinator).value.1, all, cfg);
      s.Ok? ==> (if r.cache.capacity == 0 then s.value.watched == r.watched
                 else cfg.watching ==> s.value.watched <= Names(s.value.kept))
  {
    var watched := Prepare(r, input, cfg, isCoordinator).value.1;
    var s := SortOut(r, watched, all, cfg);
    if s.Ok? && r.cache.capacity > 0 && cfg.watching {
      WatchedAfter(r.watched, r.queue, r.cache);
      UnwatchKept(watched, r.queue, s.value.cache, all.hits);
    }
  }

  /** The world after a cycle of ranks that watch only queued names. */
  ghost predicate WatchesOn(w: World, v: World, watching: bool) {
    && AllWatch(v, watching) && |v.ranks| == |w.ranks|
    && forall i :: 0 <= i < |w.ranks| ==>
      && v.ranks[i].cache.capacity == w.ranks[i].cache.capacity
      && (w.ranks[i].cache.capacity == 0 ==> v.ranks[i].watched == w.ranks[i].watched)
  }

  lemma {:induction false} CycleContinues(w: World, cfg: Config, reports: seq<Report>, all: Report, sorted: seq<Sorted>)
    requires Round(w, reports, all, sorted) && AllIdle(w)
    ensures
      var o := if TakesFastPath(w.ranks[0], all) then FastOutcome(w, sorted, all, cfg)
        else SlowOutcome(w, sorted, all, cfg);
      o.Ok? && Continues(sorted, o.value.world)
  {
    if TakesFastPath(w.ranks[0], all) {
      FastCycle(w, cfg, reports, all, sorted);
    } else {
      SlowCycle(w, cfg, reports, all, sorted);
    }
  }

  lemma {:induction false} SortedWatches(w: World, inputs: seq<Input>, cfg: Config, prepared: seq<(Report,
      set<string>)>,
      all: Report, sorted: seq<Sorted>, i: nat)
    requires Inv(w) && |inputs| == |w.ranks| && AllWatch(w, cfg.watching) && i < |w.ranks|
    requires AllOk(PrepareAll(w, inputs, cfg)) == Ok(prepared) && AllOk(SortAll(w, prepared, all, cfg)) == Ok(sorted)
    ensures
      if w.ranks[i].cache.capacity == 0 then sorted[i].watched == w.ranks[i].watched
      else cfg.watching ==> sorted[i].watched <= Names(sorted[i].kept)
  {
    assert DistinctNames(w.ranks[i].queue) by { assert RankInv(w.ranks[i], i, w.coord, |w.ranks|); }
    hide Inv, Prepare, SortOut;
    assert WatchInv(w.ranks[i], cfg.watching);
    assert PrepareAll(w, inputs, cfg)[i].Ok? && SortAll(w, prepared, all, cfg)[i].Ok?;
    RankWatches(w.ranks[i], inputs[i], cfg, i == 0, all);
  }

  lemma {:induction false} CycleWatch(w: World, inputs: seq<Input>, cfg: Config)
    requires Inv(w) && Held(w, inputs) && AllWatch(w, cfg.watching)
    ensures Negotiate(w, inputs, cfg).Ok? && WatchesOn(w, Negotiate(w, inputs, cfg).value.world, cfg.watching)
  {
    NothingAbsent(w, inputs, cfg);
    CycleServes(w, inputs, cfg);
    var prepared, all, sorted := CycleStages(w, inputs, cfg);
    CycleContinues(w, cfg, Reports(prepared), all, sorted);
    var v := Negotiate(w, inputs, cfg).value.world;
    assert |sorted| == |w.ranks|;
    forall i | 0 <= i < |w.ranks| ensures sorted[i].cache.capacity == w.ranks[i].cache.capacity {
      StoreSorted(w, Reports(prepared), all, sorted, i);
    }
    hide Negotiate, FastOutcome, SlowOutcome, Round;
    forall i | 0 <= i < |w.ranks|
      ensures if w.ranks[i].cache.capacity == 0 then sorted[i].watched == w.ranks[i].watched
              else cfg.watching ==> sorted[i].watched <= Names(sorted[i].kept)
    {
      SortedWatches(w, inputs, cfg, prepared, all, sorted, i);
    }
    hide Inv, AllWatch;
    ContinuesWatch(w, sorted, v, cfg.watching);
  }

  lemma {:induction false} ContinuesWatch(w: World, sorted: seq<Sorted>, v: World, watching: bool)
    requires |sorted| == |w.ranks| && Continues(sorted, v)
    requires forall i :: 0 <= i < |w.ranks| ==> sorted[i].cache.capacity == w.ranks[i].cache.capacity
    requires forall i :: 0 <= i < |w.ranks| ==>
      if w.ranks[i].cache.capacity == 0 then sorted[i].watched == w.ranks[i].watched
      else watching ==> sorted[i].watched <= Names(sorted[i].kept)
    ensures WatchesOn(w, v, watching)
  {
  }

  /** Turning the cache on is safe once no name is watched any more. */
  ghost predicate SafeRetune(w: World, capacity: nat) {
    w.ranks != [] && (capacity == 0 || w.ranks[0].cache.capacity > 0 || NothingWatched(w))
  }

  ghost predicate Allowed(w: World, e: Event) {
    e.Retune? ==> SafeRetune(w, e.capacity)
  }

  lemma {:induction false} RetuneWatch(w: World, capacity: nat, watching: bool)
    requires Inv(w) && AllWatch(w, watching) && SafeRetune(w, capacity)
    ensures AllWatch(Apply(w, Retune(capacity), watching).value, watching)
  {
    var v := Apply(w, Retune(capacity), watching).value;
    forall i | 0 <= i < |v.ranks| ensures WatchInv(v.ranks[i], watching) {
      SameBits(w, i);
      hide Inv, Negotiate;
      assert WatchInv(w.ranks[i], watching);
    }
  }

  lemma {:induction false} SubmitWatch(w: World, m: Request, watching: bool)
    requires AllWatch(w, watching) && m.rank < |w.ranks|
    ensures AllWatch(Apply(w, Enqueue(m), watching).value, watching)
  {
    var r := w.ranks[m.rank];
    if m.name !in r.table { SubmitNames(r, m); }
    assert WatchInv(r, watching);
  }

  lemma {:induction false} PerformWatch(w: World, i: nat, watching: bool)
    requires AllWatch(w, watching) && i < |w.ranks| && Apply(w, PerformAll(i), watching).Ok?
    ensures AllWatch(Apply(w, PerformAll(i), watching).value, watching)
  {
    assert WatchInv(w.ranks[i], watching);
  }

  /** A step that does not turn the cache on while names are watched does not fault. */
  lemma {:induction false} StepWatch(w: World, e: Event, watching: bool)
    requires Inv(w) && AllWatch(w, watching) && Allowed(w, e)
    ensures Apply(w, e, watching).Ok? && Inv(Apply(w, e, watching).value)
      && AllWatch(Apply(w, e, watching).value, watching)
  {
    StepExact(w, e, watching);
    hide Inv, AllWatch, Negotiate;
    match e
    case Enqueue(m) => if m.rank < |w.ranks| { SubmitWatch(w, m, watching); }
    case Cycle(inputs, limit) =>
      if Held(w, inputs) {
        NothingAbsent(w, inputs, Config(limit, watching));
        CycleWatch(w, inputs, Config(limit, watching));
      }
    case PerformAll(i) => if i < |w.ranks| { PerformWatch(w, i, watching); }
    case Retune(capacity) => RetuneWatch(w, capacity, watching);
  }

  // ---------------------------------------------------------------------
  // Runs
  // ---------------------------------------------------------------------

  /** No step of the run turns the cache on while names are watched. */
  ghost predicate AllAllowed(w: World, events: seq<Event>, watching: bool) {
    forall k :: 0 <= k < |events| && Run(w, events[..k], watching).Ok? ==>
      Allowed(Run(w, events[..k], watching).value, events[k])
  }

  lemma {:induction false} AllowedFront(w: World, events: seq<Event>, watching: bool)
    requires events != [] && AllAllowed(w, events, watching)
    ensures AllAllowed(w, events[..|events| - 1], watching)
    ensures Run(w, events[..|events| - 1], watching).Ok? ==>
      Allowed(Run(w, events[..|events| - 1], watching).value, events[|events| - 1])
  {
    var front := events[..|events| - 1];
    forall k | 0 <= k < |front| && Run(w, front[..k], watching).Ok?
      ensures Allowed(Run(w, front[..k], watching).value, front[k])
    {
      assert front[..k] == events[..k];
    }
  }

  /** Such a run does not fault, and only queued names are watched. */
  lemma {:induction false} RunWatch(size: nat, capacity: nat, events: seq<Event>, watching: bool)
    requires size > 0 && AllAllowed(Start(size, capacity), events, watching)
    ensures
      var w := Run(Start(size, capacity), events, watching);
      w.Ok? && Inv(w.value) && AllWatch(w.value, watching)
  {
    hide Inv, AllWatch, Allowed, Apply;
    var w := Start(size, capacity);
    if events == [] {
      StartInv(size, capacity);
      StartWatch(size, capacity, watching);
    } else {
      AllowedFront(w, events, watching);
      RunWatch(size, capacity, events[..|events| - 1], watching);
      StepWatch(Run(w, events[..|events| - 1], watching).value, events[|events| - 1], watching);
      SomeRank(Run(w, events[..|events| - 1], watching).value);
    }
  }

  lemma {:induction false} StartWatch(size: nat, capacity: nat, watching: bool)
    ensures AllWatch(Start(size, capacity), watching)
  {
  }

  lemma {:induction false} SomeRank(w: World)
    requires Inv(w)
    ensures w.ranks != []
  {
  }
}
