/**
  Tuning on all ranks.  Only the root changes parameters; the others count along, so that all ranks
  enter the broadcast of new parameters in the same cycles.
 */
module TuningRounds {
  import opened Tuning

  const SAMPLES := 5

  /** What decides when a round is over. */
  datatype Progress = Progress(active: bool, warmupRemaining: nat, sample: nat, counts: map<string, nat>)

  datatype Variable = FusionThreshold | CycleTime

  /** The chain is: fusion threshold and cycle time together, hierarchical allreduce, hierarchical allgather, cache. */
  datatype Manager = Manager(
    root: bool,
    warmups: nat,
    stepsPerSample: nat,
    progress: Progress,
    chain: seq<Knob>,
    fixed: map<Variable, real>)

  const JOINT := 0
  const ALLREDUCE := 1
  const ALLGATHER := 2
  const CACHE := 3

  datatype Params = Params(allreduce: bool, allgather: bool, cache: bool, threshold: real, cycleTime: real,
    active: bool)

  predicate WellFormed(m: Manager) {
    && |m.chain| == 4
    && m.chain[JOINT].value.Point? && m.chain[JOINT].best.Point?
    && forall i :: 1 <= i < 4 ==> m.chain[i].value.Flag? && m.chain[i].best.Flag?
  }

  // ---------------------------------------------------------------------
  // When a round is over
  // ---------------------------------------------------------------------

  /** Counts the tensors of a cycle until one of them completes a sample. */
  function CountTensors(p: Progress, names: seq<string>, steps: nat): Progress
    decreases |names|
  {
    if names == [] then p
    else
      var step := if names[0] in p.counts then p.counts[names[0]] else 0;
      var counted := p.(counts := p.counts[names[0] := step + 1]);
      if step >= (p.sample + 1) * steps then counted.(sample := p.sample + 1)
      else CountTensors(counted, names[1..], steps)
  }

  function Occurs(names: seq<string>, n: string): nat {
    if names == [] then 0 else Occurs(names[..|names| - 1], n) + (if names[|names| - 1] == n then 1 else 0)
  }

  function Counted(counts: map<string, nat>, n: string): nat {
    if n in counts then counts[n] else 0
  }

  /** The k-th tensor of the cycle has been performed often enough to complete the sample. */
  predicate Completes(p: Progress, names: seq<string>, steps: nat, k: nat)
    requires k < |names|
  {
    Counted(p.counts, names[k]) + Occurs(names[..k], names[k]) >= (p.sample + 1) * steps
  }

  lemma {:induction false} OccursFirst(m: string, names: seq<string>, n: string)
    ensures Occurs([m] + names, n) == (if m == n then 1 else 0) + Occurs(names, n)
  {
    if names == [] {
      assert [m] + names == [m] && [m][..0] == [];
    } else {
      var front := names[..|names| - 1];
      assert ([m] + names)[..|names|] == [m] + front;
      OccursFirst(m, front, n);
    }
  }

  lemma {:induction false} CompletesNext(p: Progress, names: seq<string>, steps: nat, k: nat)
    requires k + 1 < |names|
    ensures
      var counted := p.(counts := p.counts[names[0] := Counted(p.counts, names[0]) + 1]);
      Completes(p, names, steps, k + 1) <==> Completes(counted, names[1..], steps, k)
  {
    assert names[..k + 1] == [names[0]] + names[1..][..k];
    OccursFirst(names[0], names[1..][..k], names[k + 1]);
  }

  /** A sample is complete once a tensor is performed that has been performed `steps` times for each sample so far and
      once more for this one; until then every tensor performed is counted. */
  lemma {:induction false} SampleEnds(p: Progress, names: seq<string>, steps: nat)
    ensures CountTensors(p, names, steps).sample
      == if exists k :: 0 <= k < |names| && Completes(p, names, steps, k) then p.sample + 1 else p.sample
    ensures (forall k :: 0 <= k < |names| ==> !Completes(p, names, steps, k)) ==>
      forall n :: Counted(CountTensors(p, names, steps).counts, n) == Counted(p.counts, n) + Occurs(names, n)
    decreases |names|
  {
    if names != [] {
      var counted := p.(counts := p.counts[names[0] := Counted(p.counts, names[0]) + 1]);
      assert names[..0] == [] && names == [names[0]] + names[1..];
      if !Completes(p, names, steps, 0) {
        SampleEnds(counted, names[1..], steps);
        forall k: nat | k + 1 < |names|
          ensures Completes(p, names, steps, k + 1) <==> Completes(counted, names[1..], steps, k)
        {
          CompletesNext(p, names, steps, k);
        }
        CompletesLater(p, counted, names, steps);
        forall n ensures Occurs(names, n) == (if names[0] == n then 1 else 0) + Occurs(names[1..], n) {
          OccursFirst(names[0], names[1..], n);
        }
      }
    }
  }

  lemma {:induction false} CompletesLater(p: Progress, counted: Progress, names: seq<string>, steps: nat)
    requires names != [] && !Completes(p, names, steps, 0)
    requires forall k: nat :: k + 1 < |names| ==>
      (Completes(p, names, steps, k + 1) <==> Completes(counted, names[1..], steps, k))
    ensures (exists k :: 0 <= k < |names| && Completes(p, names, steps, k)) <==>
      exists k :: 0 <= k < |names| - 1 && Completes(counted, names[1..], steps, k)
  {
    hide Completes;
    if k :| 0 <= k < |names| && Completes(p, names, steps, k) {
      assert Completes(p, names, steps, (k - 1) + 1);
      assert Completes(counted, names[1..], steps, k - 1);
    }
  }

  function Reset(p: Progress): Progress {
    p.(sample := 0, counts := map[])
  }

  /** A cycle of tuning: the progress afterwards, and whether a round of measurements is complete. */
  function Advance(p: Progress, names: seq<string>, steps: nat): (Progress, bool) {
    if !p.active then (p, false)
    else
      var counted := CountTensors(p, names, steps);
      if counted.sample < SAMPLES then (counted, false)
      else if p.warmupRemaining > 0 then (Reset(counted.(warmupRemaining := p.warmupRemaining - 1)), false)
      else (counted, true)
  }

  function SetAutoTuning(m: Manager, active: bool): Manager {
    m.(progress := m.progress.(
      warmupRemaining := if active != m.progress.active then m.warmups else m.progress.warmupRemaining,
      active := active))
  }

  /** The manager's reaction to a cycle; score and proposal come from measurement and optimiser. */
  function Update(m: Manager, names: seq<string>, score: real, proposal: Setting): (Manager, bool) {
    var a := Advance(m.progress, names, m.stepsPerSample);
    var counted := m.(progress := a.0);
    if a.1 && m.root then
      var tuned := TuneChain(m.chain, score, proposal);
      var n := counted.(chain := tuned.0);
      (if tuned.1 then SetAutoTuning(n, false) else n, true)
    else (counted, a.1)
  }

  // ---------------------------------------------------------------------
  // Parameters
  // ---------------------------------------------------------------------

  /** The setting in use: the one on trial while tuning, the best one otherwise. */
  function Used(m: Manager, i: nat): Setting
    requires i < |m.chain|
  {
    if m.progress.active then m.chain[i].value else m.chain[i].best
  }

  /** The parameters in effect. */
  function Effective(m: Manager): Params
    requires WellFormed(m)
  {
    Params(Used(m, ALLREDUCE).on, Used(m, ALLGATHER).on, Used(m, CACHE).on,
           if FusionThreshold in m.fixed then m.fixed[FusionThreshold] else Used(m, JOINT).threshold,
           if CycleTime in m.fixed then m.fixed[CycleTime] else Used(m, JOINT).cycleTime,
           m.progress.active)
  }

  /** C++ conversion to an integer: toward zero. */
  function Truncated(x: real): int {
    if x >= 0.0 then x.Floor else -((-x).Floor)
  }

  /** A threshold in MB as bytes. */
  function ToBytes(threshold: real): int {
    Truncated(threshold * 1024.0 * 1024.0)
  }

  /** A threshold given in bytes, kept in MB, is read back as it was. */
  lemma {:induction false} BytesBack(bytes: int)
    ensures ToBytes(bytes as real / (1024.0 * 1024.0)) == bytes
  {
  }

  function SetKnob(k: Knob, s: Setting, fixed: bool): Knob {
    if fixed then k.(best := s, value := s, tunable := false) else k.(best := s)
  }

  function SetParams(m: Manager, p: Params): Manager
    requires WellFormed(m)
  {
    m.(chain := [m.chain[JOINT], SetKnob(m.chain[ALLREDUCE], Flag(p.allreduce), true),
                 SetKnob(m.chain[ALLGATHER], Flag(p.allgather), true), SetKnob(m.chain[CACHE], Flag(p.cache), true)],
       fixed := m.fixed[FusionThreshold := p.threshold][CycleTime := p.cycleTime],
       progress := m.progress.(active := p.active))
  }

  /** The broadcast: the root's parameters reach everyone, and all start measuring afresh. */
  function Synchronize(m: Manager, p: Params): Manager
    requires WellFormed(m)
  {
    var n := if m.root then m else SetParams(m, p);
    n.(progress := Reset(n.progress))
  }

  // ---------------------------------------------------------------------
  // All ranks
  // ---------------------------------------------------------------------

  datatype Oracle = Oracle(score: real, proposal: Setting)

  function UpdateAll(ms: seq<Manager>, names: seq<string>, oracles: seq<Oracle>): (s: seq<(Manager, bool)>)
    requires |oracles| == |ms|
    ensures |s| == |ms| && forall i :: 0 <= i < |ms| ==>
      s[i] == Update(ms[i], names, oracles[i].score, oracles[i].proposal)
  {
    seq(|ms|, i requires 0 <= i < |ms| => Update(ms[i], names, oracles[i].score, oracles[i].proposal))
  }

  /** Settings of a knob are flags, or all are points. */
  predicate Uniform(k: Knob, flag: bool) {
    && k.value.Flag? == flag && k.best.Flag? == flag && k.initial.Flag? == flag
    && match k.kind
       case Choices(values) => flag && values != [] && forall s :: s in values ==> s.Flag?
       case Joint(_, points) => !flag && forall s :: s in points ==> s.Point?
  }

  predicate UniformChain(m: Manager) {
    |m.chain| == 4 && forall i :: 0 <= i < 4 ==> Uniform(m.chain[i], i != JOINT)
  }

  lemma {:induction false} TuneUniform(k: Knob, score: real, proposal: Setting, flag: bool)
    requires Uniform(k, flag) && proposal.Point?
    ensures Uniform(TuneKnob(k, score, proposal).0, flag)
  {
    if k.kind.Choices? && k.index + 1 < |k.kind.values| { assert k.kind.values[k.index + 1] in k.kind.values; }
    if k.kind.Joint? && k.index + 1 < |k.kind.testPoints| {
      assert k.kind.testPoints[k.index + 1] in k.kind.testPoints;
    }
  }

  lemma {:induction false} ChainUniform(chain: seq<Knob>, score: real, proposal: Setting, first: nat)
    requires proposal.Point? && forall i :: 0 <= i < |chain| ==> Uniform(chain[i], first + i != JOINT)
    ensures forall i :: 0 <= i < |chain| ==> Uniform(TuneChain(chain, score, proposal).0[i], first + i != JOINT)
  {
    if chain != [] {
      TuneUniform(chain[0], score, proposal, first != JOINT);
      var k := TuneKnob(chain[0], score, proposal);
      if k.1 { ChainUniform(chain[1..], k.0.bestScore, proposal, first + 1); }
    }
  }

  lemma {:induction false} UpdateUniform(m: Manager, names: seq<string>, o: Oracle)
    requires UniformChain(m) && o.proposal.Point?
    ensures UniformChain(Update(m, names, o.score, o.proposal).0) && WellFormed(Update(m, names, o.score, o.proposal).0)
  {
    ChainUniform(m.chain, o.score, o.proposal, 0);
  }

  /** Counting does not touch what decides on parameters. */
  lemma {:induction false} CountKeeps(p: Progress, names: seq<string>, steps: nat)
    ensures CountTensors(p, names, steps).active == p.active
      && CountTensors(p, names, steps).warmupRemaining == p.warmupRemaining
    decreases |names|
  {
    if names != [] {
      var step := if names[0] in p.counts then p.counts[names[0]] else 0;
      if step < (p.sample + 1) * steps { CountKeeps(p.(counts := p.counts[names[0] := step + 1]), names[1..], steps); }
    }
  }

  lemma {:induction false} UpdateAlike(m: Manager, n: Manager, names: seq<string>, o: Oracle, q: Oracle)
    requires Alike(m, n)
    ensures
      var u, v := Update(m, names, o.score, o.proposal), Update(n, names, q.score, q.proposal);
      && u.1 == v.1 && u.0.root == m.root
      && u.0.stepsPerSample == m.stepsPerSample && u.0.warmups == m.warmups
      && (!u.1 ==> Alike(u.0, v.0))
  {
    CountKeeps(m.progress, names, m.stepsPerSample);
    CountKeeps(n.progress, names, n.stepsPerSample);
  }

  /** Without a complete round nothing changes but the counting. */
  lemma {:induction false} UpdateQuiet(m: Manager, names: seq<string>, o: Oracle)
    requires WellFormed(m) && !Update(m, names, o.score, o.proposal).1
    ensures WellFormed(Update(m, names, o.score, o.proposal).0)
    ensures Effective(Update(m, names, o.score, o.proposal).0) == Effective(m)
  {
    CountKeeps(m.progress, names, m.stepsPerSample);
  }

  /** After the broadcast a rank uses the root's parameters and counts from the beginning. */
  lemma {:induction false} Synchronized(m: Manager, root: Manager)
    requires WellFormed(m) && WellFormed(root) && (m.root ==> m == root)
    ensures
      var n := Synchronize(m, Effective(root));
      && WellFormed(n) && Effective(n) == Effective(root) && n.root == m.root && n.stepsPerSample == m.stepsPerSample
        && n.warmups == m.warmups
      && n.progress == Progress(root.progress.active, m.progress.warmupRemaining, 0, map[])
  {
  }

  /** When a round is complete, no warm-up remains; a root that goes on keeps it so. */
  lemma {:induction false} UpdateWarm(m: Manager, names: seq<string>, o: Oracle)
    requires Update(m, names, o.score, o.proposal).1
    ensures Update(m, names, o.score, o.proposal).0.progress.active ==>
      Update(m, names, o.score, o.proposal).0.progress.warmupRemaining == 0
    ensures !m.root ==> Update(m, names, o.score, o.proposal).0.progress.warmupRemaining == 0
  {
    CountKeeps(m.progress, names, m.stepsPerSample);
  }

  predicate UniformAll(ms: seq<Manager>) {
    ms != [] && forall i :: 0 <= i < |ms| ==> UniformChain(ms[i])
  }

  /** One cycle: the tensors performed, and each rank's measurement and proposal. */
  datatype Beat = Beat(names: seq<string>, oracles: seq<Oracle>)

  predicate Suits(ms: seq<Manager>, b: Beat) {
    |b.oracles| == |ms| && forall i :: 0 <= i < |ms| ==> b.oracles[i].proposal.Point?
  }

  /** A cycle on all ranks; the ranks that ask for the broadcast take part in it. */
  function RoundAll(ms: seq<Manager>, b: Beat): (s: seq<Manager>)
    requires UniformAll(ms) && Suits(ms, b)
    ensures |s| == |ms|
  {
    UpdatesWellFormed(ms, b);
    var updated := UpdateAll(ms, b.names, b.oracles);
    seq(|ms|, i requires 0 <= i < |ms| => if updated[i].1 then Synchronize(updated[i].0, Effective(updated[0].0))
      else updated[i].0)
  }

  lemma {:induction false} UpdatesWellFormed(ms: seq<Manager>, b: Beat)
    requires UniformAll(ms) && Suits(ms, b)
    ensures
      var updated := UpdateAll(ms, b.names, b.oracles);
      forall i :: 0 <= i < |ms| ==> UniformChain(updated[i].0) && WellFormed(updated[i].0)
  {
    forall i | 0 <= i < |ms|
      ensures UniformChain(UpdateAll(ms, b.names, b.oracles)[i].0) && WellFormed(UpdateAll(ms, b.names, b.oracles)[i].0)
    {
      UpdateUniform(ms[i], b.names, b.oracles[i]);
    }
  }

  /** What two ranks in step have in common. */
  ghost predicate Alike(m: Manager, n: Manager) {
    && m.stepsPerSample == n.stepsPerSample && m.warmups == n.warmups && m.progress.active == n.progress.active
    && (m.progress.active ==> m.progress == n.progress)
  }

  /** Rank 0 is the root; all ranks count alike and use the same parameters. */
  ghost predicate InStep(ms: seq<Manager>) {
    UniformAll(ms) && forall i :: 0 <= i < |ms| ==>
      (ms[i].root <==> i == 0) && Alike(ms[i], ms[0]) && Effective(ms[i]) == Effective(ms[0])
  }

  lemma {:induction false} SetUniform(m: Manager, p: Params)
    requires UniformChain(m)
    ensures WellFormed(m) && UniformChain(Synchronize(m, p))
  {
  }

  lemma {:induction false} RankInStep(ms: seq<Manager>, b: Beat, i: nat)
    requires InStep(ms) && Suits(ms, b) && i < |ms|
    ensures
      var updated, after := UpdateAll(ms, b.names, b.oracles), RoundAll(ms, b);
      && updated[i].1 == updated[0].1 && WellFormed(updated[0].0)
      && UniformChain(after[i]) && WellFormed(after[i]) && (after[i].root <==> i == 0) && Alike(after[i], after[0])
      && Effective(after[i]) == Effective(updated[0].0)
  {
    hide Update, Effective, WellFormed, Synchronize, UniformChain;
    UpdatesWellFormed(ms, b);
    var updated := UpdateAll(ms, b.names, b.oracles);
    UniformIs(ms[i]);
    UniformIs(ms[0]);
    UpdateAlike(ms[i], ms[0], b.names, b.oracles[i], b.oracles[0]);
    UpdateAlike(ms[0], ms[0], b.names, b.oracles[0], b.oracles[0]);
    if updated[i].1 {
      UpdateWarm(ms[i], b.names, b.oracles[i]);
      UpdateWarm(ms[0], b.names, b.oracles[0]);
      Synchronized(updated[i].0, updated[0].0);
      Synchronized(updated[0].0, updated[0].0);
      SetUniform(updated[i].0, Effective(updated[0].0));
    } else {
      UpdateQuiet(ms[i], b.names, b.oracles[i]);
      UpdateQuiet(ms[0], b.names, b.oracles[0]);
    }
  }

  lemma {:induction false} UniformIs(m: Manager)
    requires UniformChain(m)
    ensures WellFormed(m)
  {
  }

  /** All ranks ask for the broadcast, or none does; afterwards they are in step again, with the root's parameters. */
  lemma {:induction false} StaysInStep(ms: seq<Manager>, b: Beat)
    requires InStep(ms) && Suits(ms, b)
    ensures
      var updated, after := UpdateAll(ms, b.names, b.oracles), RoundAll(ms, b);
      && WellFormed(updated[0].0) && InStep(after)
      && forall i :: 0 <= i < |ms| ==>
        updated[i].1 == updated[0].1 && WellFormed(after[i]) && Effective(after[i]) == Effective(updated[0].0)
  {
    var updated, after := UpdateAll(ms, b.names, b.oracles), RoundAll(ms, b);
    forall i | 0 <= i < |ms|
      ensures updated[i].1 == updated[0].1 && WellFormed(updated[0].0) && UniformChain(after[i]) && WellFormed(after[i])
        && (after[i].root <==> i == 0) && Alike(after[i], after[0]) && Effective(after[i]) == Effective(updated[0].0)
    {
      RankInStep(ms, b, i);
    }
  }

  ghost predicate AllSuit(ms: seq<Manager>, beats: seq<Beat>) {
    forall k :: 0 <= k < |beats| ==> Suits(ms, beats[k])
  }

  ghost function RunAll(ms: seq<Manager>, beats: seq<Beat>): (r: seq<Manager>)
    requires InStep(ms) && AllSuit(ms, beats)
    ensures |r| == |ms| && InStep(r)
  {
    if beats == [] then ms
    else
      var n := |beats| - 1;
      var before := RunAll(ms, beats[..n]);
      assert Suits(before, beats[n]) by { assert Suits(ms, beats[n]); }
      StaysInStep(before, beats[n]);
      RoundAll(before, beats[n])
  }

  /** Over any run all ranks complete their rounds in the same cycles, and use the root's parameters in between. */
  lemma {:induction false} TuningCollective(ms: seq<Manager>, beats: seq<Beat>, b: Beat, i: nat)
    requires InStep(ms) && AllSuit(ms, beats) && Suits(ms, b) && i < |ms|
    ensures
      var now := RunAll(ms, beats);
      && UpdateAll(now, b.names, b.oracles)[i].1 == UpdateAll(now, b.names, b.oracles)[0].1
      && WellFormed(now[i]) && WellFormed(now[0]) && Effective(now[i]) == Effective(now[0])
  {
    var now := RunAll(ms, beats);
    StaysInStep(now, b);
    UniformIs(now[i]);
    UniformIs(now[0]);
  }

  // ---------------------------------------------------------------------
  // The root
  // ---------------------------------------------------------------------

  /** The root over a run of cycles. */
  function RunRoot(m: Manager, beats: seq<Beat>): Manager
    requires forall k :: 0 <= k < |beats| ==> beats[k].oracles != []
  {
    if beats == [] then m
    else
      var n := |beats| - 1;
      var u := Update(RunRoot(m, beats[..n]), beats[n].names, beats[n].oracles[0].score, beats[n].oracles[0].proposal);
      if u.1 then u.0.(progress := Reset(u.0.progress)) else u.0
  }

  /** The scores and proposals of the complete rounds. */
  function Scored(m: Manager, beats: seq<Beat>): (r: (seq<real>, seq<Setting>))
    requires forall k :: 0 <= k < |beats| ==> beats[k].oracles != []
    ensures |r.0| == |r.1|
  {
    if beats == [] then ([], [])
    else
      var n := |beats| - 1;
      var before, o := Scored(m, beats[..n]), beats[n].oracles[0];
      if Update(RunRoot(m, beats[..n]), beats[n].names, o.score, o.proposal).1
        then (before.0 + [o.score], before.1 + [o.proposal]) else before
  }

  /** The root's part of a run on all ranks. */
  lemma {:induction false} RootOfAll(ms: seq<Manager>, beats: seq<Beat>)
    requires InStep(ms) && AllSuit(ms, beats)
    ensures forall k :: 0 <= k < |beats| ==> beats[k].oracles != []
    ensures RunAll(ms, beats)[0] == RunRoot(ms[0], beats)
  {
    forall k | 0 <= k < |beats| ensures beats[k].oracles != [] { assert Suits(ms, beats[k]); }
    if beats != [] {
      var n := |beats| - 1;
      RootOfAll(ms, beats[..n]);
      var before := RunAll(ms, beats[..n]);
      assert Suits(before, beats[n]) by { assert Suits(ms, beats[n]); }
      assert before[0].root;
      assert RunAll(ms, beats) == RoundAll(before, beats[n]);
    }
  }

  /** Tuning at the root runs through exactly one cycle of the chain, one complete round after the other, and then
      stops. */
  lemma {:induction false} RootTunes(m: Manager, beats: seq<Beat>)
    requires m.root && m.progress.active && AllPlaced(m.chain) && Count(m.chain) == 0
    requires forall k :: 0 <= k < |beats| ==> beats[k].oracles != []
    ensures
      var r, scored := RunRoot(m, beats), Scored(m, beats);
      && r.root && |scored.0| <= Cycle(m.chain)
      && r.chain == RunChain(m.chain, scored.0, scored.1)
      && (r.progress.active <==> |scored.0| < Cycle(m.chain))
  {
    CountBelow(m.chain);
    if beats != [] {
      var n := |beats| - 1;
      RootTunes(m, beats[..n]);
      var before, o := RunRoot(m, beats[..n]), beats[n].oracles[0];
      var scored := Scored(m, beats[..n]);
      CountKeeps(before.progress, beats[n].names, before.stepsPerSample);
      if Update(before, beats[n].names, o.score, o.proposal).1 {
        var longer := (scored.0 + [o.score], scored.1 + [o.proposal]);
        assert longer.0[..|scored.0|] == scored.0 && longer.1[..|scored.1|] == scored.1;
        RunCounts(m.chain, longer.0, longer.1);
      }
    }
  }

  /** The rounds of measurements: cycles in which the last sample is completed while tuning is active. */
  function RoundsMeasured(m: Manager, beats: seq<Beat>): nat
    requires forall k :: 0 <= k < |beats| ==> beats[k].oracles != []
  {
    if beats == [] then 0
    else
      var n := |beats| - 1;
      var p := RunRoot(m, beats[..n]).progress;
      RoundsMeasured(m, beats[..n])
      + (if p.active && CountTensors(p, beats[n].names, m.stepsPerSample).sample >= SAMPLES then 1 else 0)
  }

  /** Exactly the warm-up rounds are dropped; every later one is used. */
  lemma {:induction false} WarmupsDropped(m: Manager, beats: seq<Beat>)
    requires m.root && m.progress.active && forall k :: 0 <= k < |beats| ==> beats[k].oracles != []
    ensures RunRoot(m, beats).root && RunRoot(m, beats).stepsPerSample == m.stepsPerSample
    ensures
      var warmups, rounds := m.progress.warmupRemaining, RoundsMeasured(m, beats);
      && |Scored(m, beats).0| == (if rounds <= warmups then 0 else rounds - warmups)
      && (RunRoot(m, beats).progress.active ==>
        RunRoot(m, beats).progress.warmupRemaining == if rounds <= warmups then warmups - rounds else 0)
  {
    if beats != [] {
      var n := |beats| - 1;
      WarmupsDropped(m, beats[..n]);
      CountKeeps(RunRoot(m, beats[..n]).progress, beats[n].names, m.stepsPerSample);
    }
  }

  /** Once tuning has stopped, the parameters in effect are the jointly best ones. */
  lemma {:induction false} RootEndsBest(m: Manager, beats: seq<Beat>)
    requires m.root && m.progress.active && AllPlaced(m.chain) && Count(m.chain) == 0
    requires forall i :: 0 <= i < |m.chain| ==> m.chain[i].bestScore == 0.0
    requires forall k :: 0 <= k < |beats| ==> beats[k].oracles != []
    ensures
      var r, scored := RunRoot(m, beats), Scored(m, beats);
      !r.progress.active ==>
        && |r.chain| == |m.chain| && |scored.0| == Cycle(m.chain)
        && (if exists j :: 0 <= j < |scored.0| && scored.0[j] > 0.0 then
              exists j: nat :: j < |scored.0| && FirstHighest(scored.0, j)
                && forall i :: 0 <= i < |m.chain| ==> Used(r, i) == InForce(m.chain, scored.0, scored.1, j)[i]
            else forall i :: 0 <= i < |m.chain| ==> Used(r, i) == m.chain[i].best)
  {
    RootTunes(m, beats);
    var r, scored := RunRoot(m, beats), Scored(m, beats);
    if !r.progress.active {
      TuningEnds(m.chain, scored.0, scored.1);
      assert forall i :: 0 <= i < |m.chain| ==> Used(r, i) == BestValues(r.chain)[i];
    }
  }

  lemma {:induction false} RootFixed(m: Manager, beats: seq<Beat>)
    requires forall k :: 0 <= k < |beats| ==> beats[k].oracles != []
    ensures RunRoot(m, beats).fixed == m.fixed
  {
    if beats != [] { RootFixed(m, beats[..|beats| - 1]); }
  }

  /** A setting for each parameter of the chain. */
  predicate Complete(s: seq<Setting>) {
    |s| == 4 && s[JOINT].Point? && forall i :: 1 <= i < 4 ==> s[i].Flag?
  }

  /** The parameters that such settings come to; fixed variables override the joint ones. */
  function ParamsFrom(s: seq<Setting>, fixed: map<Variable, real>, active: bool): Params
    requires Complete(s)
  {
    Params(s[ALLREDUCE].on, s[ALLGATHER].on, s[CACHE].on,
           if FusionThreshold in fixed then fixed[FusionThreshold] else s[JOINT].threshold,
           if CycleTime in fixed then fixed[CycleTime] else s[JOINT].cycleTime,
           active)
  }

  /** The settings in force in the first round with the highest positive score, or else those given as best. */
  ghost predicate Best(chain: seq<Knob>, scores: seq<real>, proposals: seq<Setting>, best: seq<Setting>)
    requires |scores| == |proposals|
  {
    if exists j :: 0 <= j < |scores| && scores[j] > 0.0
    then exists j: nat :: FirstHighest(scores, j) && best == InForce(chain, scores, proposals, j)
    else best == BestValues(chain)
  }

  function UsedAll(m: Manager): (s: seq<Setting>)
    requires |m.chain| == 4
    ensures |s| == 4 && forall i :: 0 <= i < 4 ==> s[i] == Used(m, i)
  {
    [Used(m, 0), Used(m, 1), Used(m, 2), Used(m, 3)]
  }

  lemma {:induction false} EffectiveFrom(m: Manager)
    requires WellFormed(m)
    ensures Complete(UsedAll(m)) && Effective(m) == ParamsFrom(UsedAll(m), m.fixed, m.progress.active)
  {
  }

  /** The settings the root is left with are the best ones. */
  lemma {:induction false} RootUsesBest(m: Manager, beats: seq<Beat>)
    requires m.root && m.progress.active && AllPlaced(m.chain) && Count(m.chain) == 0
    requires forall i :: 0 <= i < |m.chain| ==> m.chain[i].bestScore == 0.0
    requires forall k :: 0 <= k < |beats| ==> beats[k].oracles != []
    requires !RunRoot(m, beats).progress.active && |RunRoot(m, beats).chain| == 4
    ensures |Scored(m, beats).0| == Cycle(m.chain)
    ensures Best(m.chain, Scored(m, beats).0, Scored(m, beats).1, UsedAll(RunRoot(m, beats)))
  {
    RootEndsBest(m, beats);
    var r, scored := RunRoot(m, beats), Scored(m, beats);
    assert UsedAll(r) == BestValues(r.chain);
    hide RunRoot, Scored, AllPlaced, Used;
    BestIs(m.chain, scored.0, scored.1, UsedAll(r));
  }

  lemma {:induction false} BestIs(chain: seq<Knob>, scores: seq<real>, proposals: seq<Setting>, used: seq<Setting>)
    requires |scores| == |proposals| && |used| == |chain|
    requires
      if exists j :: 0 <= j < |scores| && scores[j] > 0.0 then
        exists j: nat :: j < |scores| && FirstHighest(scores, j)
          && forall i :: 0 <= i < |chain| ==> used[i] == InForce(chain, scores, proposals, j)[i]
      else forall i :: 0 <= i < |chain| ==> used[i] == chain[i].best
    ensures Best(chain, scores, proposals, used)
  {
    if exists j :: 0 <= j < |scores| && scores[j] > 0.0 {
      var j: nat :| j < |scores| && FirstHighest(scores, j)
        && forall i :: 0 <= i < |chain| ==> used[i] == InForce(chain, scores, proposals, j)[i];
      assert used == InForce(chain, scores, proposals, j);
    } else {
      assert used == BestValues(chain);
    }
  }

  /** Once tuning has stopped, every rank uses the jointly best parameters. */
  lemma {:induction false} AllEndBest(ms: seq<Manager>, beats: seq<Beat>, i: nat) returns (best: seq<Setting>)
    requires InStep(ms) && AllSuit(ms, beats) && i < |ms|
    requires ms[0].progress.active && AllPlaced(ms[0].chain) && Count(ms[0].chain) == 0
    requires forall k :: 0 <= k < |ms[0].chain| ==> ms[0].chain[k].bestScore == 0.0
    requires !RunAll(ms, beats)[i].progress.active
    ensures forall k :: 0 <= k < |beats| ==> beats[k].oracles != []
    ensures Best(ms[0].chain, Scored(ms[0], beats).0, Scored(ms[0], beats).1, best)
    ensures Complete(best) && WellFormed(RunAll(ms, beats)[i])
    ensures Effective(RunAll(ms, beats)[i]) == ParamsFrom(best, ms[0].fixed, false)
  {
    RootOfAll(ms, beats);
    var now := RunAll(ms, beats);
    UniformIs(now[i]);
    UniformIs(now[0]);
    assert Alike(now[i], now[0]) && Effective(now[i]) == Effective(now[0]);
    assert ms[0].root && !now[0].progress.active;
    best := UsedAll(now[0]);
    RootUsesBest(ms[0], beats);
    RootFixed(ms[0], beats);
    EffectiveFrom(now[0]);
  }

  // ---------------------------------------------------------------------
  // The cache after tuning
  // ---------------------------------------------------------------------

  /** The controller's own capacity.  It does not get to know what is configured. */
  const CONTROLLER_CAPACITY: nat := 1024

  /** The capacity is adjusted at the start of a cycle, as long as tuning is active. */
  function CapacityAfter(active: bool, cacheEnabled: bool, current: nat): nat {
    if active then (if cacheEnabled then CONTROLLER_CAPACITY else 0) else current
  }

  const BOTH_FLAGS := [Flag(false), Flag(true)]

  /** The last parameter says whether the cache is on; it is tuned. */
  ghost predicate TunesCache(chain: seq<Knob>) {
    && AllPlaced(chain) && Count(chain) == 0 && chain != []
    && chain[|chain| - 1].tunable && chain[|chain| - 1].kind == Choices(BOTH_FLAGS)
  }

  /** While tuning goes on, the cache is off in the first half of the rounds and on in the second: it is turned on
      once. */
  lemma {:induction false} CacheTurnsOnOnce(chain: seq<Knob>, scores: seq<real>, proposals: seq<Setting>, j: nat)
    requires TunesCache(chain)
    requires |scores| == |proposals| <= Cycle(chain) && j <= |scores| && j < Cycle(chain)
    ensures InForce(chain, scores, proposals, j)[|chain| - 1] == Flag(2 * j >= Cycle(chain))
  {
    LastTurnsOnce(chain, scores, proposals, j);
  }

  lemma {:induction false} CycleAtLeastTwo(chain: seq<Knob>)
    requires TunesCache(chain)
    ensures Cycle(chain) >= 2
  {
    CycleFront(chain);
    CountBelow(chain);
  }

  lemma {:induction false} FirstHighestUnique(scores: seq<real>, j: nat, k: nat)
    requires FirstHighest(scores, j) && FirstHighest(scores, k)
    ensures j == k
  {
    assert scores[j] <= scores[k] && scores[k] <= scores[j];
  }

  /** The tuner's verdict on the cache: on if the first round with the highest positive score had it on, or if no score
      is positive and it was on from the start. */
  ghost predicate CacheWins(chain: seq<Knob>, scores: seq<real>)
    requires chain != []
  {
    if exists j :: 0 <= j < |scores| && scores[j] > 0.0
    then exists j: nat :: FirstHighest(scores, j) && 2 * j >= Cycle(chain)
    else chain[|chain| - 1].best == Flag(true)
  }

  lemma {:induction false} BestCache(chain: seq<Knob>, scores: seq<real>, proposals: seq<Setting>)
    requires TunesCache(chain) && |scores| == |proposals| == Cycle(chain)
    requires forall i :: 0 <= i < |chain| ==> chain[i].bestScore == 0.0
    ensures BestValues(RunChain(chain, scores, proposals))[|chain| - 1] == Flag(true) <==> CacheWins(chain, scores)
  {
    TuningEnds(chain, scores, proposals);
    var best := BestValues(RunChain(chain, scores, proposals));
    if exists j :: 0 <= j < |scores| && scores[j] > 0.0 {
      var j: nat :| j < |scores| && FirstHighest(scores, j) && best == InForce(chain, scores, proposals, j);
      CacheTurnsOnOnce(chain, scores, proposals, j);
      forall k: nat | FirstHighest(scores, k) ensures k == j { FirstHighestUnique(scores, j, k); }
    }
  }

  /** Tuning leaves the cache with the controller's capacity, because its last round has the cache on.  That is what
      the best settings ask for exactly if the cache wins. */
  lemma {:induction false} CapacityAfterTuning(chain: seq<Knob>, scores: seq<real>, proposals: seq<Setting>,
      before: nat)
    requires TunesCache(chain) && |scores| == |proposals| == Cycle(chain)
    requires forall i :: 0 <= i < |chain| ==> chain[i].bestScore == 0.0
    ensures scores != []
    ensures
      var last := InForce(chain, scores, proposals, |scores| - 1)[|chain| - 1];
      var best := BestValues(RunChain(chain, scores, proposals))[|chain| - 1];
      var left := CapacityAfter(false, best == Flag(true), CapacityAfter(true, last == Flag(true), before));
      && left == CONTROLLER_CAPACITY
      && (left == CapacityAfter(true, best == Flag(true), left) <==> CacheWins(chain, scores))
  {
    CycleAtLeastTwo(chain);
    CacheTurnsOnOnce(chain, scores, proposals, |scores| - 1);
    BestCache(chain, scores, proposals);
  }

  /** The chain as the program builds it: fusion threshold (in MB) and cycle time (in ms) together, from four test
      points, then both hierarchical operations and the cache. `maxSamples` comes from the environment. */
  function DefaultChain(maxSamples: nat): seq<Knob> {
    [Knob(Joint(maxSamples, [Point(4.0, 5.0), Point(32.0, 50.0), Point(16.0, 25.0), Point(8.0, 10.0)]),
          true, 0, Point(4.0, 5.0), Point(4.0, 5.0), Point(64.0, 5.0), 0.0),
     Knob(Choices(BOTH_FLAGS), true, 0, Flag(false), Flag(false), Flag(false), 0.0),
     Knob(Choices(BOTH_FLAGS), true, 0, Flag(false), Flag(false), Flag(false), 0.0),
     Knob(Choices(BOTH_FLAGS), true, 0, Flag(false), Flag(false), Flag(true), 0.0)]
  }

  lemma {:induction false} DefaultChainTunes(maxSamples: nat)
    ensures TunesCache(DefaultChain(maxSamples)) && Cycle(DefaultChain(maxSamples)) == 8 * (maxSamples + 1)
  {
    var c := DefaultChain(maxSamples);
    assert c[1..][1..] == c[2..] && c[2..][1..] == c[3..] && c[3..][1..] == [];
    assert Count(c[3..]) == 0 && Count(c[2..]) == 0 && Count(c[1..]) == 0;
    assert Cycle(c[3..]) == 2 && Cycle(c[2..]) == 4 && Cycle(c[1..]) == 8;
    assert Size(c[0]) == maxSamples + 1;
  }

  /** It does happen, on the program's own chain: if the very first round scores best, the best settings have the
      cache off, and still it keeps its capacity. */
  lemma {:induction false} CapacityMismatch(maxSamples: nat, before: nat, proposals: seq<Setting>)
    requires |proposals| == 8 * (maxSamples + 1)
    ensures
      var chain, scores := DefaultChain(maxSamples), seq(8 * (maxSamples + 1), i => if i == 0 then 2.0 else 1.0);
      && |scores| == Cycle(chain) && |RunChain(chain, scores, proposals)| == 4
      && RunChain(chain, scores, proposals)[CACHE].best != Flag(true)
      && CapacityAfter(true, InForce(chain, scores, proposals, |scores| - 1)[CACHE] == Flag(true), before)
        == CONTROLLER_CAPACITY
  {
    var chain, scores := DefaultChain(maxSamples), seq(8 * (maxSamples + 1), i => if i == 0 then 2.0 else 1.0);
    DefaultChainTunes(maxSamples);
    assert scores[0] > 0.0;
    assert FirstHighest(scores, 0);
    forall k: nat | FirstHighest(scores, k) ensures k == 0 { FirstHighestUnique(scores, 0, k); }
    assert !CacheWins(chain, scores);
    BestCache(chain, scores, proposals);
    CacheTurnsOnOnce(chain, scores, proposals, |scores| - 1);
  }
}
