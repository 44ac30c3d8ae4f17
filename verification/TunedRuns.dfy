/**
  The main loop as a whole: negotiation with the cache capacity that the autotuner asks for.  The
  tuner turns the cache on at most once, when no name is watched yet, so no lookup ever fails.
 */
module TunedRuns {
  import opened Messages
  import opened CacheModel
  import opened Negotiation
  import opened Invariants
  import opened RoundProofs
  import opened CycleTheorem
  import opened Runs
  import opened Watching
  import Tuning
  import opened TuningRounds
  import FusionBuffers

  /** What a job is started with: each rank's parameters, the cache capacity that the startup code sets, whether stalls
      are checked for, and how ranks are spread over nodes. */
  datatype Job = Job(managers: seq<Manager>, configured: nat, watching: bool, homogeneous: bool, localSize: nat)

  datatype Moment =
    | Submits(m: Request)
    | Performs(rank: nat)
    | Turns(inputs: seq<Input>, beat: Beat)     // one turn of the main loop on all ranks

  /** The world, and what the tuner has seen so far. */
  datatype State = State(world: World, beats: seq<Beat>)

  /** If the cache is tuned it is tuned last; if it is fixed, then by a configured capacity. */
  ghost predicate Prepared(job: Job) {
    && InStep(job.managers) && job.localSize >= 1
    && var chain := job.managers[0].chain;
       job.managers[0].progress.active ==>
         && Tuning.AllPlaced(chain) && Tuning.Count(chain) == 0
         && (if chain[CACHE].tunable then chain[CACHE].kind == Tuning.Choices(BOTH_FLAGS)
             else chain[CACHE].value == chain[CACHE].best == Tuning.Flag(job.configured > 0))
  }

  /** The capacity at startup, before tuning is switched on: that configured, if the value given as best says so. */
  ghost function Initially(job: Job): nat
    requires Prepared(job)
  {
    if job.managers[0].chain[CACHE].best == Tuning.Flag(true) then job.configured else 0
  }

  ghost function Begin(job: Job): State
    requires Prepared(job)
  {
    State(Start(|job.managers|, Initially(job)), [])
  }

  ghost predicate Sized(job: Job, s: State) {
    InStep(job.managers) && job.localSize >= 1 && |s.world.ranks| == |job.managers| && AllSuit(job.managers, s.beats)
  }

  /** Each rank sets the capacity that its own parameters ask for. */
  ghost function Adjust(w: World, ms: seq<Manager>): World
    requires |ms| == |w.ranks| && forall i :: 0 <= i < |ms| ==> WellFormed(ms[i])
  {
    World(seq(|w.ranks|, i requires 0 <= i < |w.ranks| =>
            w.ranks[i].(cache := SetCapacity(w.ranks[i].cache,
              CapacityAfter(ms[i].progress.active, Effective(ms[i]).cache, w.ranks[i].cache.capacity)))),
                w.coord)
  }

  lemma {:induction false} AllWellFormed(ms: seq<Manager>)
    requires InStep(ms)
    ensures forall i :: 0 <= i < |ms| ==> WellFormed(ms[i])
  {
    forall i | 0 <= i < |ms| ensures WellFormed(ms[i]) { UniformIs(ms[i]); }
  }

  ghost function Adjusted(job: Job, s: State): World
    requires Sized(job, s)
  {
    AllWellFormed(RunAll(job.managers, s.beats));
    Adjust(s.world, RunAll(job.managers, s.beats))
  }

  /** The fusion threshold that rank i uses in the next turn. */
  ghost function Limit(job: Job, s: State, i: nat): int
    requires Sized(job, s) && i < |job.managers|
  {
    AllWellFormed(RunAll(job.managers, s.beats));
    FusionBuffers.ThresholdBytes(ToBytes(Effective(RunAll(job.managers, s.beats)[i]).threshold),
                                 job.homogeneous, job.localSize)
  }

  ghost function Next(job: Job, s: State, e: Moment): Result<State>
    requires Sized(job, s) && s.world.ranks != []
  {
    match e
    case Submits(m) =>
      var w :- Apply(s.world, Enqueue(m), job.watching);
      Ok(State(w, s.beats))
    case Performs(i) =>
      var w :- Apply(s.world, PerformAll(i), job.watching);
      Ok(State(w, s.beats))
    case Turns(inputs, beat) =>
      if Held(s.world, inputs) && Suits(job.managers, beat) then
        var w :- Apply(Adjusted(job, s), Cycle(inputs, Limit(job, s, 0)), job.watching);
        Ok(State(w, s.beats + [beat]))
      else Ok(s)
  }

  ghost function Play(job: Job, moments: seq<Moment>): Result<State>
    requires Prepared(job)
  {
    if moments == [] then Ok(Begin(job))
    else
      var before :- Play(job, moments[..|moments| - 1]);
      if Sized(job, before) && before.world.ranks != [] then Next(job, before, moments[|moments| - 1])
        else Err(Diverged)
  }

  // ---------------------------------------------------------------------
  // The root's tuner
  // ---------------------------------------------------------------------

  /** The scores of the complete rounds. */
  ghost function ScoresOf(job: Job, beats: seq<Beat>): seq<real>
    requires InStep(job.managers) && AllSuit(job.managers, beats)
  {
    RootOfAll(job.managers, beats);
    Scored(job.managers[0], beats).0
  }

  ghost function RoundsOf(job: Job, beats: seq<Beat>): nat
    requires InStep(job.managers) && AllSuit(job.managers, beats)
  {
    |ScoresOf(job, beats)|
  }

  lemma {:induction false} LongerSuits(job: Job, beats: seq<Beat>, b: Beat)
    requires AllSuit(job.managers, beats) && Suits(job.managers, b)
    ensures AllSuit(job.managers, beats + [b])
  {
  }

  /** A turn completes at most one round. */
  lemma {:induction false} RoundsGrow(job: Job, beats: seq<Beat>, b: Beat)
    requires InStep(job.managers) && AllSuit(job.managers, beats) && Suits(job.managers, b)
    ensures AllSuit(job.managers, beats + [b])
    ensures RoundsOf(job, beats) <= RoundsOf(job, beats + [b]) <= RoundsOf(job, beats) + 1
  {
    LongerSuits(job, beats, b);
    RootOfAll(job.managers, beats + [b]);
    RootOfAll(job.managers, beats);
    assert (beats + [b])[..|beats|] == beats;
  }

  ghost predicate Tuned(job: Job) {
    job.managers != [] && |job.managers[0].chain| == 4 && job.managers[0].progress.active
  }

  lemma {:induction false} RootActive(job: Job, beats: seq<Beat>)
    requires Prepared(job) && Tuned(job) && AllSuit(job.managers, beats)
    ensures
      var root := RunAll(job.managers, beats)[0];
      && WellFormed(root) && RoundsOf(job, beats) <= Tuning.Cycle(job.managers[0].chain)
      && (root.progress.active <==> RoundsOf(job, beats) < Tuning.Cycle(job.managers[0].chain))
  {
    RootOfAll(job.managers, beats);
    assert job.managers[0].root;
    RootTunes(job.managers[0], beats);
    UniformIs(RunAll(job.managers, beats)[0]);
  }

  /** While the root tunes the cache, it is off in the first half of the rounds and on in the second; a fixed one
      stays. */
  lemma {:induction false} RootCache(m: Manager, beats: seq<Beat>, enabled: bool)
    requires m.root && m.progress.active && |m.chain| == 4 && Tuning.AllPlaced(m.chain) && Tuning.Count(m.chain) == 0
    requires if m.chain[CACHE].tunable then m.chain[CACHE].kind == Tuning.Choices(BOTH_FLAGS)
             else m.chain[CACHE].value == m.chain[CACHE].best == Tuning.Flag(enabled)
    requires forall k :: 0 <= k < |beats| ==> beats[k].oracles != []
    requires RunRoot(m, beats).progress.active
    ensures |RunRoot(m, beats).chain| == 4
    ensures Used(RunRoot(m, beats), CACHE) == Tuning.Flag(
      if m.chain[CACHE].tunable then 2 * |Scored(m, beats).0| >= Tuning.Cycle(m.chain) else enabled)
  {
    RootTunes(m, beats);
    var scored := Scored(m, beats);
    assert scored.0[..|scored.0|] == scored.0 && scored.1[..|scored.1|] == scored.1;
    hide RunRoot, Scored, Tuning.RunChain;
    if m.chain[CACHE].tunable {
      CacheTurnsOnOnce(m.chain, scored.0, scored.1, |scored.0|);
    } else {
      Tuning.FixedStays(m.chain, scored.0, scored.1, CACHE);
    }
  }

  /** Past the middle of the rounds. */
  ghost predicate Late(job: Job, beats: seq<Beat>)
    requires InStep(job.managers) && AllSuit(job.managers, beats)
  {
    2 * RoundsOf(job, beats) >= Tuning.Cycle(job.managers[0].chain)
  }

  lemma {:induction false} TunedCache(job: Job, beats: seq<Beat>)
    requires Prepared(job) && Tuned(job) && AllSuit(job.managers, beats)
    ensures
      var root := RunAll(job.managers, beats)[0];
      && WellFormed(root)
      && (root.progress.active ==>
        Effective(root).cache == if job.managers[0].chain[CACHE].tunable then Late(job, beats) else job.configured > 0)
  {
    RootActive(job, beats);
    RootOfAll(job.managers, beats);
    assert job.managers[0].root;
    hide InStep, RunAll, WellFormed, RunRoot, Scored;
    if RunAll(job.managers, beats)[0].progress.active { RootCache(job.managers[0], beats, job.configured > 0); }
  }

  // ---------------------------------------------------------------------
  // No turn fails
  // ---------------------------------------------------------------------

  ghost predicate AllCapacity(w: World, capacity: nat) {
    forall i :: 0 <= i < |w.ranks| ==> w.ranks[i].cache.capacity == capacity
  }

  /** Where the capacity stands when tuning was on from the start.  A tuned cache is turned on with the controller's
      capacity, with nothing watched before; a fixed one keeps the configured capacity up to the first turn only. */
  ghost predicate Stage(w: World, configured: nat, tunable: bool, active: bool, late: bool, begun: bool) {
    if tunable then (active && NothingWatched(w)) || ((active ==> late) && AllCapacity(w, CONTROLLER_CAPACITY))
    else (active || begun) && AllCapacity(w, if begun && configured > 0 then CONTROLLER_CAPACITY else configured)
  }

  lemma {:induction false} StageStep(w: World, v: World, configured: nat, wanted: nat, tunable: bool, active: bool,
      late: bool, begun: bool, stillActive: bool, nowLate: bool)
    requires Stage(w, configured, tunable, active, late, begun) && AllCapacity(v, wanted)
    requires active ==> wanted == if (if tunable then late else configured > 0) then CONTROLLER_CAPACITY else 0
    requires !active ==> AllCapacity(w, wanted) && w.ranks != []
    requires wanted == 0 && NothingWatched(w) ==> NothingWatched(v)
    requires (stillActive ==> active) && (late ==> nowLate) && (tunable && active && !stillActive ==> late)
    ensures Stage(v, configured, tunable, stillActive, nowLate, true)
  {
    if !active { assert w.ranks[0].cache.capacity == wanted; }
  }

  ghost predicate Phase(job: Job, s: State)
    requires Prepared(job) && Sized(job, s)
  {
    if Tuned(job) then
      Stage(s.world, job.configured, job.managers[0].chain[CACHE].tunable,
        RunAll(job.managers, s.beats)[0].progress.active, Late(job, s.beats), s.beats != [])
    else AllCapacity(s.world, Initially(job))
  }

  ghost predicate Safe(job: Job, s: State) {
    Prepared(job) && Sized(job, s) && Inv(s.world) && AllWatch(s.world, job.watching) && Phase(job, s)
  }

  /** The capacity all ranks set before a cycle. */
  ghost function Wanted(job: Job, s: State): nat
    requires Sized(job, s) && s.world.ranks != []
  {
    var root := RunAll(job.managers, s.beats)[0];
    UniformIs(root);
    CapacityAfter(root.progress.active, Effective(root).cache, s.world.ranks[0].cache.capacity)
  }

  /** All ranks set the same capacity. */
  lemma {:induction false} AdjustRetunes(job: Job, s: State)
    requires Sized(job, s) && Inv(s.world)
    ensures s.world.ranks != []
    ensures Apply(s.world, Retune(Wanted(job, s)), job.watching) == Ok(Adjusted(job, s))
  {
    var w, now := s.world, RunAll(job.managers, s.beats);
    AllWellFormed(now);
    var v := Adjust(w, now);
    var u := Apply(w, Retune(Wanted(job, s)), job.watching).value;
    forall i | 0 <= i < |w.ranks| ensures u.ranks[i] == v.ranks[i] {
      SameBits(w, i);
      assert Alike(now[i], now[0]) && Effective(now[i]) == Effective(now[0]);
    }
    assert u.ranks == v.ranks;
  }

  /** Whatever the tuner asks for, the cache is not turned on while names are watched. */
  lemma {:induction false} WantedSafe(job: Job, s: State)
    requires Safe(job, s)
    ensures s.world.ranks != [] && SafeRetune(s.world, Wanted(job, s))
  {
    var root := RunAll(job.managers, s.beats)[0];
    UniformIs(root);
    if root.progress.active {
      if Tuned(job) { TunedCache(job, s.beats); } else { NeverActive(job, s.beats); }
    }
  }

  lemma {:induction false} NeverActive(job: Job, beats: seq<Beat>)
    requires InStep(job.managers) && AllSuit(job.managers, beats) && !job.managers[0].progress.active
    ensures !RunAll(job.managers, beats)[0].progress.active
  {
    RootOfAll(job.managers, beats);
    RootIdle(job.managers[0], beats);
  }

  lemma {:induction false} RootIdle(m: Manager, beats: seq<Beat>)
    requires !m.progress.active && forall k :: 0 <= k < |beats| ==> beats[k].oracles != []
    ensures RunRoot(m, beats) == m
  {
    if beats != [] { RootIdle(m, beats[..|beats| - 1]); }
  }

  /** The rounds go on, and tuning stops only in the second half of them. */
  lemma {:induction false} LateAfter(job: Job, beats: seq<Beat>, b: Beat)
    requires Prepared(job) && Tuned(job) && AllSuit(job.managers, beats) && Suits(job.managers, b)
    ensures AllSuit(job.managers, beats + [b])
    ensures Late(job, beats) ==> Late(job, beats + [b])
    ensures
      var before, after := RunAll(job.managers, beats)[0].progress.active,
        RunAll(job.managers, beats + [b])[0].progress.active;
      && (after ==> before)
      && (job.managers[0].chain[CACHE].tunable && before && !after ==> Late(job, beats))
  {
    RoundsGrow(job, beats, b);
    RootActive(job, beats);
    RootActive(job, beats + [b]);
    hide InStep, RunAll, RoundsOf, AllSuit;
    if job.managers[0].chain[CACHE].tunable { CycleAtLeastTwo(job.managers[0].chain); }
  }

  lemma {:induction false} RetunedWatches(w: World, v: World, u: World, capacity: nat, watching: bool)
    requires Retuned(w, v, capacity) && WatchesOn(v, u, watching)
    ensures AllCapacity(u, capacity) && (capacity == 0 && NothingWatched(w) ==> NothingWatched(u))
  {
  }

  lemma {:induction false} SameCapacity(w: World)
    requires Inv(w)
    ensures w.ranks != [] && AllCapacity(w, w.ranks[0].cache.capacity)
  {
    forall i | 0 <= i < |w.ranks| ensures w.ranks[i].cache.capacity == w.ranks[0].cache.capacity { SameBits(w, i); }
  }

  lemma {:induction false} WantedIs(job: Job, s: State)
    requires Prepared(job) && Sized(job, s) && Tuned(job) && s.world.ranks != []
    ensures
      var active, tunable := RunAll(job.managers, s.beats)[0].progress.active, job.managers[0].chain[CACHE].tunable;
      Wanted(job, s) ==
        if !active then s.world.ranks[0].cache.capacity
        else if (if tunable then Late(job, s.beats) else job.configured > 0) then CONTROLLER_CAPACITY else 0
  {
    TunedCache(job, s.beats);
  }

  lemma {:induction false} WantedIdle(job: Job, s: State)
    requires Prepared(job) && Sized(job, s) && !Tuned(job) && s.world.ranks != []
    ensures Wanted(job, s) == s.world.ranks[0].cache.capacity
  {
    NeverActive(job, s.beats);
  }

  /** Where tuning is after a turn. */
  lemma {:induction false} PhaseAfter(job: Job, s: State, v: World, b: Beat, w: World)
    requires Safe(job, s) && Suits(job.managers, b) && s.world.ranks != []
    requires Retuned(s.world, v, Wanted(job, s)) && WatchesOn(v, w, job.watching)
    ensures Sized(job, State(w, s.beats + [b])) && Phase(job, State(w, s.beats + [b]))
  {
    RetunedWatches(s.world, v, w, Wanted(job, s), job.watching);
    SameCapacity(s.world);
    LongerSuits(job, s.beats, b);
    assert Sized(job, State(w, s.beats + [b]));
    if Tuned(job) {
      WantedIs(job, s);
      LateAfter(job, s.beats, b);
      hide Inv, InStep, RunAll, Late, Retuned, WatchesOn, AllWatch, Wanted, Prepared, Stage, AllSuit;
      StageStep(s.world, w, job.configured, Wanted(job, s), job.managers[0].chain[CACHE].tunable,
        RunAll(job.managers, s.beats)[0].progress.active, Late(job, s.beats), s.beats != [],
        RunAll(job.managers, s.beats + [b])[0].progress.active, Late(job, s.beats + [b]));
    } else {
      WantedIdle(job, s);
      assert AllCapacity(w, s.world.ranks[0].cache.capacity);
    }
  }

  /** All ranks use the same fusion threshold. */
  lemma {:induction false} SameLimit(job: Job, s: State, i: nat)
    requires Sized(job, s) && i < |job.managers|
    ensures Limit(job, s, i) == Limit(job, s, 0)
  {
    var now := RunAll(job.managers, s.beats);
    assert Effective(now[i]) == Effective(now[0]);
  }

  lemma {:induction false} NextIsCycle(job: Job, s: State, inputs: seq<Input>, b: Beat)
    requires Sized(job, s) && Inv(s.world) && Held(s.world, inputs) && Suits(job.managers, b)
    ensures s.world.ranks != []
    ensures
      var v := Apply(s.world, Retune(Wanted(job, s)), job.watching).value;
      && v.ranks != []
      && Next(job, s, Turns(inputs, b)) == (
        var u := Apply(v, Cycle(inputs, Limit(job, s, 0)), job.watching);
        if u.Ok? then Ok(State(u.value, s.beats + [b])) else Err(u.fault))
  {
    AdjustRetunes(job, s);
    hide Inv, InStep, Negotiate, Effective, WellFormed;
  }

  lemma {:induction false} IsSafe(job: Job, s: State)
    requires Prepared(job) && Sized(job, s) && Inv(s.world) && AllWatch(s.world, job.watching) && Phase(job, s)
    ensures Safe(job, s)
  {
  }

  /** The cycle that follows the change of capacity. */
  lemma {:induction false} RetunedCycle(w: World, capacity: nat, inputs: seq<Input>, limit: int, watching: bool)
    returns (v: World)
    requires Inv(w) && AllWatch(w, watching) && SafeRetune(w, capacity) && Held(w, inputs)
    ensures Apply(w, Retune(capacity), watching).Ok?
    ensures
      var u := Apply(w, Retune(capacity), watching).value;
      && u.ranks != [] && Retuned(w, u, capacity) && Apply(u, Cycle(inputs, limit), watching) == Ok(v)
      && WatchesOn(u, v, watching)
    ensures Inv(v) && AllWatch(v, watching)
  {
    StepWatch(w, Retune(capacity), watching);
    var u := Apply(w, Retune(capacity), watching).value;
    assert Retuned(w, u, capacity) && Held(u, inputs);
    hide Inv, AllWatch, Negotiate;
    CycleWatch(u, inputs, Config(limit, watching));
    StepWatch(u, Cycle(inputs, limit), watching);
    v := Negotiate(u, inputs, Config(limit, watching)).value.world;
  }

  lemma {:induction false} TurnSafe(job: Job, s: State, inputs: seq<Input>, b: Beat)
    requires Safe(job, s) && Held(s.world, inputs) && Suits(job.managers, b)
    ensures s.world.ranks != []
    ensures Next(job, s, Turns(inputs, b)).Ok? && Safe(job, Next(job, s, Turns(inputs, b)).value)
  {
    NextIsCycle(job, s, inputs, b);
    WantedSafe(job, s);
    var u := Apply(s.world, Retune(Wanted(job, s)), job.watching).value;
    var v := RetunedCycle(s.world, Wanted(job, s), inputs, Limit(job, s, 0), job.watching);
    PhaseAfter(job, s, u, b, v);
    hide Inv, InStep, AllWatch, RunAll, Wanted, Prepared, Safe, Phase, Apply, Retuned, WatchesOn, Held;
    IsSafe(job, State(v, s.beats + [b]));
  }

  lemma {:induction false} BeginSafe(job: Job)
    requires Prepared(job)
    ensures Safe(job, Begin(job))
  {
    var s := Begin(job);
    assert job.managers != [] && |job.managers[0].chain| == 4;
    StartInv(|job.managers|, s.world.ranks[0].cache.capacity);
    assert NothingWatched(s.world);
    assert RunAll(job.managers, []) == job.managers;
  }

  lemma {:induction false} NextSafe(job: Job, s: State, e: Moment)
    requires Safe(job, s)
    ensures s.world.ranks != [] && Next(job, s, e).Ok? && Safe(job, Next(job, s, e).value)
  {
    match e
    case Submits(m) => OtherSafe(job, s, Enqueue(m));
    case Performs(i) => OtherSafe(job, s, PerformAll(i));
    case Turns(inputs, beat) => if Held(s.world, inputs)
      && Suits(job.managers, beat) { TurnSafe(job, s, inputs, beat); }
  }

  /** Submitting and performing leave caches and watched names alone. */
  ghost predicate KeepsCaches(w: World, v: World) {
    && |v.ranks| == |w.ranks|
    && forall i :: 0 <= i < |v.ranks| ==>
      v.ranks[i].watched == w.ranks[i].watched && v.ranks[i].cache == w.ranks[i].cache
  }

  lemma {:induction false} OtherKeeps(w: World, e: Event, watching: bool)
    requires w.ranks != [] && (e.Enqueue? || e.PerformAll?) && Apply(w, e, watching).Ok?
    ensures KeepsCaches(w, Apply(w, e, watching).value)
  {
  }

  lemma {:induction false} OtherSafe(job: Job, s: State, e: Event)
    requires Safe(job, s) && (e.Enqueue? || e.PerformAll?)
    ensures s.world.ranks != [] && Apply(s.world, e, job.watching).Ok?
    ensures Safe(job, State(Apply(s.world, e, job.watching).value, s.beats))
  {
    StepWatch(s.world, e, job.watching);
    OtherKeeps(s.world, e, job.watching);
    var v := Apply(s.world, e, job.watching).value;
    hide Inv, InStep, RunAll, AllWatch, Prepared, Late, Apply, Stage;
    StageKept(s.world, v, job.configured, job.managers[0].chain[CACHE].tunable,
      RunAll(job.managers, s.beats)[0].progress.active, Late(job, s.beats), s.beats != []);
  }

  lemma {:induction false} StageKept(w: World, v: World, configured: nat, tunable: bool, active: bool, late: bool,
      begun: bool)
    requires KeepsCaches(w, v)
    ensures Stage(w, configured, tunable, active, late, begun) ==> Stage(v, configured, tunable, active, late, begun)
  {
  }

  /** The program never faults, whatever is submitted and whatever the measurements are, tuned or not. */
  lemma {:induction false} PlaySafe(job: Job, moments: seq<Moment>)
    requires Prepared(job)
    ensures Play(job, moments).Ok? && Safe(job, Play(job, moments).value)
  {
    hide Safe, Next, Prepared;
    if moments == [] {
      BeginSafe(job);
    } else {
      PlaySafe(job, moments[..|moments| - 1]);
      NextSafe(job, Play(job, moments[..|moments| - 1]).value, moments[|moments| - 1]);
      SafeSized(job, Play(job, moments[..|moments| - 1]).value);
    }
  }

  lemma {:induction false} SafeSized(job: Job, s: State)
    requires Safe(job, s)
    ensures Sized(job, s) && s.world.ranks != []
  {
  }

  /** What a turn of the main loop comes to: a cycle that serves all ranks, each with the same fusion threshold. */
  ghost predicate ServesTurn(job: Job, s: State, inputs: seq<Input>, after: State)
    requires Sized(job, s)
  {
    var w := Adjusted(job, s);
    && |inputs| == |w.ranks| && w.ranks != []
    && (forall i :: 0 <= i < |w.ranks| ==> Limit(job, s, i) == Limit(job, s, 0))
    && var o := Negotiate(w, inputs, Config(Limit(job, s, 0), job.watching));
       && o.Ok? && o.value.world == after.world && Served(w, o.value, Config(Limit(job, s, 0), job.watching))
         && Lockstep(after.world)
  }

  lemma {:induction false} CycleLockstep(w: World, inputs: seq<Input>, cfg: Config, watching: bool)
    requires Inv(w) && Held(w, inputs) && AllWatch(w, cfg.watching) && watching == cfg.watching
    ensures w.ranks != [] && Negotiate(w, inputs, cfg).Ok? && Served(w, Negotiate(w, inputs, cfg).value, cfg)
    ensures Lockstep(Negotiate(w, inputs, cfg).value.world)
    ensures Apply(w, Cycle(inputs, cfg.limit), watching) == Ok(Negotiate(w, inputs, cfg).value.world)
  {
    NothingAbsent(w, inputs, cfg);
    CycleServes(w, inputs, cfg);
    hide AllWatch, Negotiate, Served;
  }

  /** The state in which the cycle of the turn is held. */
  lemma {:induction false} AdjustedSafe(job: Job, s: State, inputs: seq<Input>)
    requires Safe(job, s) && Held(s.world, inputs)
    ensures s.world.ranks != []
    ensures
      var v := Adjusted(job, s);
      && Apply(s.world, Retune(Wanted(job, s)), job.watching) == Ok(v) && |v.ranks| == |job.managers|
      && Inv(v) && AllWatch(v, job.watching) && Held(v, inputs)
  {
    AdjustRetunes(job, s);
    WantedSafe(job, s);
    StepWatch(s.world, Retune(Wanted(job, s)), job.watching);
  }

  lemma {:induction false} TurnServes(job: Job, s: State, inputs: seq<Input>, b: Beat)
    requires Safe(job, s) && Held(s.world, inputs) && Suits(job.managers, b)
    ensures s.world.ranks != [] && Next(job, s, Turns(inputs, b)).Ok?
    ensures ServesTurn(job, s, inputs, Next(job, s, Turns(inputs, b)).value)
  {
    NextIsCycle(job, s, inputs, b);
    AdjustedSafe(job, s, inputs);
    hide *;
    forall i | 0 <= i < |job.managers| ensures Limit(job, s, i) == Limit(job, s, 0) { SameLimit(job, s, i); }
    CycleLockstep(Adjusted(job, s), inputs, Config(Limit(job, s, 0), job.watching), job.watching);
  }

  /** After any run of the program, tuned or not: the next turn serves all ranks alike exactly what all have asked
      for. */
  lemma {:induction false} NextTurn(job: Job, moments: seq<Moment>, inputs: seq<Input>, b: Beat)
    requires Prepared(job)
    ensures Play(job, moments).Ok? && Sized(job, Play(job, moments).value)
    ensures
      var s, after := Play(job, moments).value, Play(job, moments + [Turns(inputs, b)]);
      Held(s.world, inputs) && Suits(job.managers, b) ==> after.Ok? && ServesTurn(job, s, inputs, after.value)
  {
    hide Safe, Next, Prepared, ServesTurn, Held, Suits;
    PlaySafe(job, moments);
    var s := Play(job, moments).value;
    SafeSized(job, s);
    if Held(s.world, inputs) && Suits(job.managers, b) {
      TurnServes(job, s, inputs, b);
      assert (moments + [Turns(inputs, b)])[..|moments|] == moments;
    }
  }

  /** When tuning is over, every rank's cache has the controller's capacity, which is what the best settings ask for
      exactly if the cache wins. */
  lemma {:induction false} CapacityLeft(job: Job, moments: seq<Moment>, i: nat)
    requires Prepared(job) && Tuned(job) && job.managers[0].chain[CACHE].tunable && i < |job.managers|
    requires forall k :: 0 <= k < 4 ==> job.managers[0].chain[k].bestScore == 0.0
    ensures Play(job, moments).Ok? && Sized(job, Play(job, moments).value)
    ensures
      var s := Play(job, moments).value;
      var now := RunAll(job.managers, s.beats);
      var left := s.world.ranks[i].cache.capacity;
      !now[0].progress.active ==>
        && WellFormed(now[i]) && left == CONTROLLER_CAPACITY
        && (left == (if Effective(now[i]).cache then CONTROLLER_CAPACITY else 0)
            <==> CacheWins(job.managers[0].chain, ScoresOf(job, s.beats)))
  {
    PlaySafe(job, moments);
    var s := Play(job, moments).value;
    SafeSized(job, s);
    RootOfAll(job.managers, s.beats);
    var m, now := job.managers[0], RunAll(job.managers, s.beats);
    if !now[0].progress.active {
      assert m.root;
      RootTunes(m, s.beats);
      BestCache(m.chain, Scored(m, s.beats).0, Scored(m, s.beats).1);
      UniformIs(now[i]);
      UniformIs(now[0]);
      assert Effective(now[i]) == Effective(now[0]);
    }
  }

  /** The capacity set at startup is kept exactly if the autotuner is off, or no turn has been taken yet, or it makes no
      difference: the tuner knows only of the controller's own capacity. */
  lemma {:induction false} ConfiguredHonoured(job: Job, moments: seq<Moment>)
    requires Prepared(job) && (Tuned(job) ==> !job.managers[0].chain[CACHE].tunable)
    ensures Play(job, moments).Ok?
    ensures
      var s := Play(job, moments).value;
      && (AllCapacity(s.world, Initially(job)) <==>
          !job.managers[0].progress.active || s.beats == [] || job.configured in {0, CONTROLLER_CAPACITY})
      && (AllCapacity(s.world, Initially(job)) || AllCapacity(s.world, CONTROLLER_CAPACITY))
  {
    PlaySafe(job, moments);
    SafeCapacity(job, Play(job, moments).value);
  }

  lemma {:induction false} SafeCapacity(job: Job, s: State)
    requires Safe(job, s) && (Tuned(job) ==> !job.managers[0].chain[CACHE].tunable)
    ensures AllCapacity(s.world, Initially(job)) <==>
      !job.managers[0].progress.active || s.beats == [] || job.configured in {0, CONTROLLER_CAPACITY}
    ensures AllCapacity(s.world, Initially(job)) || AllCapacity(s.world, CONTROLLER_CAPACITY)
  {
    SafeSized(job, s);
    assert |job.managers[0].chain| == 4;
    hide Inv, AllWatch, InStep, AllSuit, RunAll, Late;
    assert AllCapacity(s.world, s.world.ranks[0].cache.capacity);
  }

  /** One rank, started with the autotuner on and a cache capacity of 5. */
  function FiveJob(): Job {
    var chain := DefaultChain(20);
    Job([Manager(true, 3, 10, Progress(true, 3, 0, map[]),
                 chain[CACHE := SetKnob(chain[CACHE], Tuning.Flag(true), true)], map[])], 5, true, true, 1)
  }

  lemma {:induction false} CountZero(chain: seq<Tuning.Knob>)
    requires forall i :: 0 <= i < |chain| ==> chain[i].index == 0
    ensures Tuning.Count(chain) == 0
  {
    if chain != [] { CountZero(chain[1..]); }
  }

  lemma {:induction false} FivePrepared()
    ensures Prepared(FiveJob())
  {
    CountZero(FiveJob().managers[0].chain);
    assert UniformChain(FiveJob().managers[0]);
  }

  /** A single turn without any work replaces the capacity of 5. */
  lemma {:induction false} FiveReplaced(proposal: Tuning.Setting)
    requires proposal.Point?
    ensures
      var beat := Beat([], [Oracle(1.0, proposal)]);
      && Prepared(FiveJob()) && Play(FiveJob(), [Turns([Input(false, false, {}, false)], beat)]).Ok?
      && AllCapacity(Begin(FiveJob()).world, 5)
      && AllCapacity(Play(FiveJob(), [Turns([Input(false, false, {}, false)], beat)]).value.world, CONTROLLER_CAPACITY)
  {
    FivePrepared();
    var job, inputs, beat := FiveJob(), [Input(false, false, {}, false)], Beat([], [Oracle(1.0, proposal)]);
    assert Initially(job) == 5 && AllCapacity(Begin(job).world, 5);
    assert Held(Begin(job).world, inputs) && Suits(job.managers, beat) && |Begin(job).world.ranks| == 1;
    hide Prepared, Apply, Safe, Next, InStep, RunAll, FiveJob;
    OneTurn(job, inputs, beat);
    ConfiguredHonoured(job, [Turns(inputs, beat)]);
  }

  lemma {:induction false} OneTurn(job: Job, inputs: seq<Input>, b: Beat)
    requires Prepared(job) && Held(Begin(job).world, inputs) && Suits(job.managers, b)
    ensures Play(job, [Turns(inputs, b)]).Ok? && Play(job, [Turns(inputs, b)]).value.beats == [b]
  {
    var moments := [Turns(inputs, b)];
    PlaySafe(job, moments);
    BeginSafe(job);
    SafeSized(job, Begin(job));
    assert moments[..0] == [] && Play(job, []) == Ok(Begin(job));
    hide Prepared, Apply, Safe, InStep, RunAll, Held, Suits, Adjusted, Limit;
  }

  /** A fusion threshold given in bytes at startup is the one used in every turn, tuned or not. */
  lemma {:induction false} ThresholdHonoured(job: Job, moments: seq<Moment>, bytes: int)
    requires Prepared(job) && FusionThreshold in job.managers[0].fixed
    requires job.managers[0].fixed[FusionThreshold] == bytes as real / (1024.0 * 1024.0)
    ensures Play(job, moments).Ok? && Sized(job, Play(job, moments).value)
    ensures Limit(job, Play(job, moments).value, 0)
      == FusionBuffers.ThresholdBytes(bytes, job.homogeneous, job.localSize)
  {
    PlaySafe(job, moments);
    var s := Play(job, moments).value;
    SafeSized(job, s);
    RootOfAll(job.managers, s.beats);
    RootFixed(job.managers[0], s.beats);
    BytesBack(bytes);
  }

  /** In every turn of the program fused tensors fit the buffer that each rank initialises with its own threshold. */
  lemma {:induction false} TurnFits(job: Job, moments: seq<Moment>, inputs: seq<Input>, b: Beat, i: nat, g: Response,
      before: map<FusionBuffers.Key, FusionBuffers.Slot>, after: map<FusionBuffers.Key, FusionBuffers.Slot>,
      key: FusionBuffers.Key, granted: bool)
    requires Prepared(job) && i < |job.managers| && Suits(job.managers, b)
    ensures Play(job, moments).Ok? && Sized(job, Play(job, moments).value)
    ensures
      var s := Play(job, moments).value;
      Held(s.world, inputs) && FusionBuffers.Initialized(before, after, Limit(job, s, i), key, granted, true) ==>
        var w := Adjusted(job, s);
        && |inputs| == |w.ranks| && w.ranks != []
        && var o := Negotiate(w, inputs, Config(Limit(job, s, 0), job.watching));
           o.Ok? && FusionBuffers.Fits(w, o.value, i, g, after, key)
  {
    NextTurn(job, moments, inputs, b);
    var s := Play(job, moments).value;
    if Held(s.world, inputs) && FusionBuffers.Initialized(before, after, Limit(job, s, i), key, granted, true) {
      SameLimit(job, s, i);
      var w, cfg := Adjusted(job, s), Config(Limit(job, s, 0), job.watching);
      assert |w.ranks| == |job.managers|;
      hide Play, Adjusted, Limit, Negotiate, Served, FusionBuffers.Initialized, FusionBuffers.Fits;
      FusionBuffers.ServedFits(w, Negotiate(w, inputs, cfg).value, cfg, i, g, before, after, key, granted);
    }
  }
}
