/**
  Whole runs: tensors are submitted, cycles are held, agreed responses are performed and the
  autotuner changes the cache capacity, in any order.
 */
module Runs {
  import opened Messages
  import opened Sequences
  import opened CacheModel
  import opened Fusion
  import opened Negotiation
  import opened Invariants
  import opened SlowProofs
  import opened CycleTheorem

  datatype Event =
    | Enqueue(m: Request)                     // a rank submits a tensor
    | Cycle(inputs: seq<Input>, limit: int)   // all ranks negotiate, with the fusion threshold of the moment
    | PerformAll(rank: nat)                   // a rank performs what was agreed
    | Retune(capacity: nat)                   // all ranks set the cache capacity

  function Submit(r: Rank, m: Request): Rank {
    if m.name in r.table then r                               // duplicate names are refused
    else r.(table := r.table[m.name := ParamsOf(m)], queue := r.queue + [m])
  }

  /** Takes the entries of performed tensors out of the table. */
  function TakeAll(t: Table, names: seq<string>): Result<Table> {
    if names == [] then Ok(t)
    else if names[0] !in t then Err(MissingKey)
    else TakeAll(t - {names[0]}, names[1..])
  }

  /** All ranks take part in the cycle: none is still performing. */
  ghost predicate Held(w: World, inputs: seq<Input>) {
    |inputs| == |w.ranks| && AllIdle(w)
  }

  /** One step; `watching` is whether stalls are checked for. */
  function Apply(w: World, e: Event, watching: bool): Result<World>
    requires w.ranks != []
  {
    match e
    case Enqueue(m) =>
      if m.rank < |w.ranks| then Ok(World(w.ranks[m.rank := Submit(w.ranks[m.rank], m)], w.coord)) else Ok(w)
    case Cycle(inputs, limit) =>
      if |inputs| == |w.ranks| && (forall i :: 0 <= i < |w.ranks| ==> w.ranks[i].pending == []) then
        var o :- Negotiate(w, inputs, Config(limit, watching));
        Ok(o.world)
      else Ok(w)
    case PerformAll(i) =>
      if i < |w.ranks| then
        var t :- TakeAll(w.ranks[i].table, AllNames(w.ranks[i].pending));
        Ok(World(w.ranks[i := w.ranks[i].(table := t, pending := [])], w.coord))
      else Ok(w)
    case Retune(capacity) =>
      Ok(World(seq(|w.ranks|, i requires 0 <= i < |w.ranks| =>
                 w.ranks[i].(cache := SetCapacity(w.ranks[i].cache, capacity))), w.coord))
  }

  function Start(size: nat, capacity: nat): World {
    World(seq(size, i => Rank(map[], [], Empty(capacity), {}, [])), Coordinator(map[], map[]))
  }

  /** The state after a run, if no step faults. */
  function Run(w: World, events: seq<Event>, watching: bool): Result<World> {
    if events == [] then Ok(w)
    else
      var before :- Run(w, events[..|events| - 1], watching);
      if before.ranks == [] then Ok(before) else Apply(before, events[|events| - 1], watching)
  }

  /** The step is a cycle in which a rank looks up an absent name. */
  ghost predicate Faults(w: World, e: Event, watching: bool) {
    e.Cycle? && Held(w, e.inputs) && AnyLookupFails(w, e.inputs, Config(e.limit, watching))
  }

  // ---------------------------------------------------------------------
  // Single steps
  // ---------------------------------------------------------------------

  lemma {:induction false} StartInv(size: nat, capacity: nat)
    requires size > 0
    ensures Inv(Start(size, capacity))
  {
  }

  lemma {:induction false} SubmitNames(r: Rank, m: Request)
    requires m.name !in r.table
    ensures Names(Submit(r, m).queue) == Names(r.queue) + {m.name}
    ensures forall x :: x in Submit(r, m).queue <==> x in r.queue || x == m
  {
  }

  lemma {:induction false} SubmitRank(r: Rank, m: Request, k: Coordinator, size: nat)
    requires RankInv(r, m.rank, k, size)
    ensures RankInv(Submit(r, m), m.rank, k, size)
  {
    if m.name !in r.table {
      SubmitNames(r, m);
      var s := Submit(r, m);
      forall i, j | 0 <= i < j < |s.queue| ensures s.queue[i].name != s.queue[j].name {
        if j == |r.queue| { assert r.queue[i] in r.queue; }
      }
    }
  }

  lemma {:induction false} SameRanks(w: World, v: World, i: nat, j: nat)
    requires Inv(w) && v.coord == w.coord && |v.ranks| == |w.ranks| && i < |w.ranks| && j < |w.ranks|
    requires forall k :: 0 <= k < |w.ranks| && k != i ==> v.ranks[k] == w.ranks[k]
    requires RankInv(v.ranks[i], i, w.coord, |w.ranks|)
    ensures RankInv(v.ranks[j], j, v.coord, |v.ranks|)
  {
    if j != i { assert v.ranks[j] == w.ranks[j]; }
  }

  lemma {:induction false} SameCaches(w: World, v: World)
    requires Inv(w) && |v.ranks| == |w.ranks|
    requires forall k :: 0 <= k < |w.ranks| ==> v.ranks[k].cache == w.ranks[k].cache
    ensures Lockstep(v)
    ensures v.ranks[0].cache.bits == w.ranks[0].cache.bits
  {
  }

  /** Replacing one rank by a sound one with the same cache keeps the invariant. */
  lemma {:induction false} OneRank(w: World, v: World, i: nat)
    requires Inv(w) && v.coord == w.coord && |v.ranks| == |w.ranks| && i < |w.ranks|
    requires forall k :: 0 <= k < |w.ranks| && k != i ==> v.ranks[k] == w.ranks[k]
    requires RankInv(v.ranks[i], i, w.coord, |w.ranks|) && v.ranks[i].cache == w.ranks[i].cache
    requires forall n :: n in w.coord.messages ==> FiledInv(v, n)
    ensures Inv(v)
  {
    forall j | 0 <= j < |v.ranks| ensures RankInv(v.ranks[j], j, v.coord, |v.ranks|) {
      SameRanks(w, v, i, j);
    }
    SameCaches(w, v);
  }

  lemma {:induction false} SubmitFiled(w: World, m: Request, v: World, n: string)
    requires m.rank < |w.ranks| && FiledInv(w, n)
    requires v == World(w.ranks[m.rank := Submit(w.ranks[m.rank], m)], w.coord)
    ensures FiledInv(v, n)
  {
    TablesGrow(w, v, n);
  }

  lemma {:induction false} SubmitInv(w: World, m: Request)
    requires Inv(w) && m.rank < |w.ranks|
    ensures Inv(World(w.ranks[m.rank := Submit(w.ranks[m.rank], m)], w.coord))
  {
    var v := World(w.ranks[m.rank := Submit(w.ranks[m.rank], m)], w.coord);
    assert RankInv(w.ranks[m.rank], m.rank, w.coord, |w.ranks|);
    SubmitRank(w.ranks[m.rank], m, w.coord, |w.ranks|);
    forall n | n in v.coord.messages ensures FiledInv(v, n) {
      SubmitFiled(w, m, v, n);
    }
    OneRank(w, v, m.rank);
  }

  lemma {:induction false} TablesGrow(w: World, v: World, n: string)
    requires FiledInv(w, n) && v.coord == w.coord && |v.ranks| == |w.ranks|
    requires forall i :: 0 <= i < |w.ranks| && n in w.ranks[i].table ==>
      n in v.ranks[i].table && v.ranks[i].table[n] == w.ranks[i].table[n]
    ensures FiledInv(v, n)
  {
  }

  lemma {:induction false} TakeAllOk(t: Table, names: seq<string>)
    requires Distinct(names) && forall n :: n in names ==> n in t
    ensures TakeAll(t, names).Ok? && TakeAll(t, names).value == t - (set n | n in names)
    decreases |names|
  {
    if names != [] {
      assert names[0] !in names[1..];
      TakeAllOk(t - {names[0]}, names[1..]);
      assert (set n | n in names) == {names[0]} + (set n | n in names[1..]);
    } else {
      assert t - (set n | n in names) == t;
    }
  }

  /** Performing finds every agreed tensor in the table. */
  lemma {:induction false} PerformRank(r: Rank, id: nat, k: Coordinator, size: nat)
    requires RankInv(r, id, k, size)
    ensures TakeAll(r.table, AllNames(r.pending)).Ok?
    ensures RankInv(r.(table := TakeAll(r.table, AllNames(r.pending)).value, pending := []), id, k, size)
    ensures TakeAll(r.table, AllNames(r.pending)).value == r.table - (set n | n in AllNames(r.pending))
  {
    TakeAllOk(r.table, AllNames(r.pending));
    var s := r.(table := TakeAll(r.table, AllNames(r.pending)).value, pending := []);
    forall m | m in s.queue ensures m.rank == id && m.name in s.table && s.table[m.name] == ParamsOf(m) {
      assert m.name in Names(r.queue);
    }
  }

  /** Rank i has performed what was agreed. */
  ghost predicate Performed(w: World, v: World, i: nat) {
    && v.coord == w.coord && |v.ranks| == |w.ranks| && i < |w.ranks|
    && (forall j :: 0 <= j < |w.ranks| && j != i ==> v.ranks[j] == w.ranks[j])
    && v.ranks[i] == w.ranks[i].(table := w.ranks[i].table - (set n | n in AllNames(w.ranks[i].pending)), pending := [])
  }

  lemma {:induction false} PerformedInv(w: World, v: World, i: nat)
    requires Inv(w) && Performed(w, v, i) && RankInv(v.ranks[i], i, w.coord, |w.ranks|)
    ensures Inv(v)
  {
    forall n | n in v.coord.messages ensures FiledInv(v, n) { PerformFiled(w, i, v, n); }
    OneRank(w, v, i);
  }

  lemma {:induction false} PerformInv(w: World, i: nat, watching: bool)
    requires Inv(w) && i < |w.ranks|
    ensures Apply(w, PerformAll(i), watching).Ok? && Inv(Apply(w, PerformAll(i), watching).value)
  {
    var r := w.ranks[i];
    assert RankInv(r, i, w.coord, |w.ranks|);
    PerformRank(r, i, w.coord, |w.ranks|);
    hide Inv, RankInv, Negotiate, TakeAll, AllNames;
    PerformedInv(w, Apply(w, PerformAll(i), watching).value, i);
  }

  /** A tensor still waiting at the coordinator is not performed. */
  lemma {:induction false} PerformFiled(w: World, i: nat, v: World, n: string)
    requires Inv(w) && i < |w.ranks| && n in w.coord.messages && v.coord == w.coord && |v.ranks| == |w.ranks|
    requires forall j :: 0 <= j < |w.ranks| && j != i ==> v.ranks[j] == w.ranks[j]
    requires v.ranks[i].table == w.ranks[i].table - (set x | x in AllNames(w.ranks[i].pending))
    ensures FiledInv(v, n)
  {
    assert FiledInv(w, n);
    assert RankInv(w.ranks[i], i, w.coord, |w.ranks|);
    forall m | m in RequestsFor(w.coord, n)
      ensures m.name == n && m.rank < |v.ranks| && n in v.ranks[m.rank].table && v.ranks[m.rank].table[n] == ParamsOf(m)
    {
      if m.rank == i { assert i in Waiters(w.coord, n); }
    }
  }

  lemma {:induction false} RetuneRank(r: Rank, id: nat, k: Coordinator, size: nat, capacity: nat)
    requires RankInv(r, id, k, size)
    ensures RankInv(r.(cache := SetCapacity(r.cache, capacity)), id, k, size)
  {
  }

  ghost predicate Retuned(w: World, v: World, capacity: nat) {
    && v.coord == w.coord && |v.ranks| == |w.ranks|
    && forall i :: 0 <= i < |w.ranks| ==> v.ranks[i] == w.ranks[i].(cache := SetCapacity(w.ranks[i].cache, capacity))
  }

  lemma {:induction false} RetuneRanks(w: World, v: World, capacity: nat, i: nat)
    requires Inv(w) && Retuned(w, v, capacity) && i < |w.ranks|
    ensures RankInv(v.ranks[i], i, v.coord, |v.ranks|) && SameCache(v.ranks[0].cache, v.ranks[i].cache)
    ensures forall n :: n in v.ranks[i].cache.bits ==> n in w.ranks[i].cache.bits
  {
    assert RankInv(w.ranks[i], i, w.coord, |w.ranks|) && SameCache(w.ranks[0].cache, w.ranks[i].cache);
    RetuneRank(w.ranks[i], i, w.coord, |w.ranks|, capacity);
  }

  lemma {:induction false} RetuneFiled(w: World, v: World, capacity: nat, n: string)
    requires Inv(w) && Retuned(w, v, capacity) && n in w.coord.messages
    ensures FiledInv(v, n)
  {
    assert FiledInv(w, n);
    TablesGrow(w, v, n);
  }

  lemma {:induction false} RetuneInv(w: World, v: World, capacity: nat)
    requires Inv(w) && Retuned(w, v, capacity)
    ensures Inv(v)
  {
    forall i | 0 <= i < |v.ranks|
      ensures RankInv(v.ranks[i], i, v.coord, |v.ranks|) && SameCache(v.ranks[0].cache, v.ranks[i].cache)
    {
      RetuneRanks(w, v, capacity, i);
    }
    RetuneRanks(w, v, capacity, 0);
    forall n | n in v.coord.messages ensures FiledInv(v, n) { RetuneFiled(w, v, capacity, n); }
  }

  /** A step faults exactly when it is a cycle in which a rank looks up an absent name; otherwise the invariant holds
      on. */
  lemma {:induction false} StepExact(w: World, e: Event, watching: bool)
    requires Inv(w)
    ensures Apply(w, e, watching).Err? <==> Faults(w, e, watching)
    ensures Apply(w, e, watching).Ok? ==> Inv(Apply(w, e, watching).value)
  {
    match e
    case Enqueue(m) => if m.rank < |w.ranks| { SubmitInv(w, m); }
    case Cycle(inputs, limit) => if Held(w, inputs) { CycleServes(w, inputs, Config(limit, watching)); }
    case PerformAll(i) => if i < |w.ranks| { PerformInv(w, i, watching); }
    case Retune(capacity) => RetuneInv(w, Apply(w, e, watching).value, capacity);
  }

  // ---------------------------------------------------------------------
  // Runs
  // ---------------------------------------------------------------------

  /** Everything goes well up to step k, which faults. */
  ghost predicate FaultsAt(w: World, events: seq<Event>, k: nat, watching: bool) {
    k < |events| && Run(w, events[..k], watching).Ok?
      && Faults(Run(w, events[..k], watching).value, events[k], watching)
  }

  lemma {:induction false} FaultsEarlier(w: World, events: seq<Event>, k: nat, watching: bool)
    requires events != [] && k < |events| - 1
    ensures FaultsAt(w, events, k, watching) <==> FaultsAt(w, events[..|events| - 1], k, watching)
  {
    assert events[..|events| - 1][..k] == events[..k];
  }

  /** The last step of a run. */
  lemma {:induction false} RunStep(w: World, events: seq<Event>, watching: bool)
    requires events != [] && Run(w, events[..|events| - 1], watching).Ok?
    requires Inv(Run(w, events[..|events| - 1], watching).value)
    ensures Run(w, events, watching).Err? <==> FaultsAt(w, events, |events| - 1, watching)
    ensures Run(w, events, watching).Ok? ==> Inv(Run(w, events, watching).value)
  {
    StepExact(Run(w, events[..|events| - 1], watching).value, events[|events| - 1], watching);
    hide Inv, Faults, Apply;
  }

  /** A run faults exactly at a cycle in which a rank looks up an absent name: no other lookup fails, no cache entry
      conflicts and no rank enters another collective.  Until then the invariant holds. */
  lemma {:induction false} RunExact(size: nat, capacity: nat, events: seq<Event>, watching: bool)
    requires size > 0
    ensures Run(Start(size, capacity), events, watching).Err? <==>
      exists k :: FaultsAt(Start(size, capacity), events, k, watching)
    ensures Run(Start(size, capacity), events, watching).Ok? ==> Inv(Run(Start(size, capacity), events, watching).value)
  {
    hide Inv, Faults, Apply;
    var w := Start(size, capacity);
    if events == [] {
      StartInv(size, capacity);
    } else {
      var n := |events| - 1;
      RunExact(size, capacity, events[..n], watching);
      forall k: nat | k < n ensures FaultsAt(w, events, k, watching) <==> FaultsAt(w, events[..n], k, watching) {
        FaultsEarlier(w, events, k, watching);
      }
      if Run(w, events[..n], watching).Ok? {
        RunStep(w, events, watching);
        forall k | FaultsAt(w, events, k, watching) ensures k == n {}
      } else {
        assert Run(w, events, watching).Err?;
      }
    }
  }
}
