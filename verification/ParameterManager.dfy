/** The tuned parameters and their manager, in place. */
module ParameterManagers {
  import opened Tuning
  import opened TuningRounds

  class TunableParameter {
    const kind: Kind
    var tunable: bool
    var index: nat
    var value: Setting
    var initialValue: Setting
    var bestValue: Setting
    var bestScore: real

    ghost function View(): Knob
      reads this
    {
      Knob(kind, tunable, index, value, initialValue, bestValue, bestScore)
    }

    constructor (kind: Kind, initialValue: Setting)
      ensures View() == Knob(kind, true, 0, initialValue, initialValue, initialValue, 0.0)
    {
      this.kind := kind;
      this.initialValue, value, bestValue := initialValue, initialValue, initialValue;
      bestScore, tunable, index := 0.0, true, 0;
    }

    method UpdateBestValue(score: real)
      modifies this`bestScore, this`bestValue
      ensures View() == UpdateBest(old(View()), score)
    {
      if score > bestScore {
        bestScore := score;
        bestValue := value;
      }
    }

    method OnTune(proposal: Setting)
      modifies this`index, this`value
      ensures View() == old(View()).(index := old(index) + 1, value := value)
      ensures index < Rounds(View()) ==> value == NextSetting(kind, index, proposal)
    {
      index := index + 1;
      match kind
      case Choices(values) => if index < |values| { value := values[index]; }
      case Joint(_, points) => value := if index < |points| then points[index] else proposal;
    }

    predicate IsDoneTuning()
      reads this
    {
      match kind
      case Choices(values) => index >= |values|
      case Joint(maxSamples, _) => index > maxSamples
    }

    method CompleteTuning()
      modifies this`index, this`value
      ensures View() == old(View()).(index := 0, value := initialValue)
    {
      value := initialValue;
      index := 0;
    }

    /** Takes a score; returns the best one so far and whether this parameter is through. */
    method Tune(score: real, proposal: Setting) returns (best: real, finished: bool)
      modifies this
      ensures (View(), finished) == TuneKnob(old(View()), score, proposal) && best == View().bestScore
    {
      UpdateBestValue(score);
      best := bestScore;
      if !tunable { return best, true; }
      OnTune(proposal);
      if IsDoneTuning() {
        CompleteTuning();
        return best, true;
      }
      finished := false;
    }

    method SetValue(setting: Setting, fixed: bool)
      modifies this`bestValue, this`value, this`tunable
      ensures View() == SetKnob(old(View()), setting, fixed)
    {
      bestValue := setting;
      if fixed {
        value := setting;
        tunable := false;
      }
    }
  }

  /** Nothing that follows a score is smaller. */
  ghost predicate InOrder(s: seq<real>) {
    s == [] || ((forall y :: y in s[1..] ==> s[0] <= y) && InOrder(s[1..]))
  }

  function Insert(x: real, s: seq<real>): (r: seq<real>)
    ensures multiset(r) == multiset(s) + multiset{x}
  {
    if s == [] then [x]
    else if x <= s[0] then [x] + s
    else
      assert s == [s[0]] + s[1..];
      [s[0]] + Insert(x, s[1..])
  }

  lemma {:induction false} PrependInOrder(x: real, s: seq<real>)
    requires InOrder(s) && forall y :: y in s ==> x <= y
    ensures InOrder([x] + s)
  {
    assert ([x] + s)[1..] == s;
  }

  lemma {:induction false} InsertInOrder(x: real, s: seq<real>)
    requires InOrder(s)
    ensures InOrder(Insert(x, s))
    ensures forall y :: y in Insert(x, s) ==> y == x || y in s
  {
    if s == [] {
    } else if x <= s[0] {
      forall y | y in s ensures x <= y { if y != s[0] { assert y in s[1..]; } }
      PrependInOrder(x, s);
    } else {
      InsertInOrder(x, s[1..]);
      PrependInOrder(s[0], Insert(x, s[1..]));
    }
  }

  /** The scores in increasing order. */
  function Sort(s: seq<real>): (r: seq<real>)
    ensures multiset(r) == multiset(s) && |r| == |s| && InOrder(r)
  {
    if s == [] then []
    else
      assert s == [s[0]] + s[1..];
      InsertInOrder(s[0], Sort(s[1..]));
      var r := Insert(s[0], Sort(s[1..]));
      assert |multiset(r)| == |r| && |multiset(s)| == |s|;
      r
  }

  lemma {:induction false} LeastFirst(a: seq<real>, y: real)
    requires InOrder(a) && y in multiset(a)
    ensures a != [] && a[0] <= y
  {
    if a != [] && y != a[0] { assert a == [a[0]] + a[1..] && y in a[1..]; }
  }

  lemma {:induction false} SameTails(a: seq<real>, b: seq<real>)
    requires a != [] && b != [] && a[0] == b[0] && multiset(a) == multiset(b)
    ensures multiset(a[1..]) == multiset(b[1..])
  {
    assert a == [a[0]] + a[1..] && b == [b[0]] + b[1..];
    assert multiset(a[1..]) == multiset(a) - multiset{a[0]} && multiset(b[1..]) == multiset(b) - multiset{b[0]};
  }

  /** There is only one way to sort, however the library does it. */
  lemma {:induction false} SortUnique(a: seq<real>, b: seq<real>)
    requires InOrder(a) && InOrder(b) && multiset(a) == multiset(b)
    ensures a == b
  {
    assert |multiset(a)| == |a| && |multiset(b)| == |b|;
    if a != [] {
      assert a[0] in multiset(a) && b[0] in multiset(b);
      LeastFirst(b, a[0]);
      LeastFirst(a, b[0]);
      SameTails(a, b);
      SortUnique(a[1..], b[1..]);
      assert a == [a[0]] + a[1..] && b == [b[0]] + b[1..];
    }
  }

  ghost function Views(chain: seq<TunableParameter>): (s: seq<Knob>)
    reads chain
    ensures |s| == |chain| && forall i :: 0 <= i < |chain| ==> s[i] == chain[i].View()
  {
    if chain == [] then [] else Views(chain[..|chain| - 1]) + [chain[|chain| - 1].View()]
  }

  ghost predicate Different(chain: seq<TunableParameter>) {
    forall i, j :: 0 <= i < j < |chain| ==> chain[i] != chain[j]
  }

  /** The first `i` parameters are through and have handed `best` down. */
  ghost predicate Passed(was: seq<Knob>, score: real, proposal: Setting, now: seq<Knob>, i: nat, best: real) {
    && i <= |now| == |was| && now[i..] == was[i..]
    && TuneChain(was, score, proposal).0 == now[..i] + TuneChain(was[i..], best, proposal).0
    && TuneChain(was, score, proposal).1 == TuneChain(was[i..], best, proposal).1
  }

  lemma {:induction false} PassNone(was: seq<Knob>, score: real, proposal: Setting)
    ensures Passed(was, score, proposal, was, 0, score)
  {
    assert was[0..] == was && was[..0] == [];
    var r := TuneChain(was, score, proposal).0;
    assert [] + r == r;
  }

  lemma {:induction false} PassNext(was: seq<Knob>, score: real, proposal: Setting, now: seq<Knob>, i: nat, best: real)
    requires Passed(was, score, proposal, now, i, best) && i < |now|
    ensures
      var first := TuneKnob(now[i], best, proposal);
      var next := now[i := first.0];
      if first.1 then Passed(was, score, proposal, next, i + 1, first.0.bestScore)
      else TuneChain(was, score, proposal) == (next, false)
  {
    assert now[i] == was[i] by { assert now[i..][0] == was[i..][0]; }
    assert now[i + 1..] == was[i + 1..] by { assert now[i..][1..] == was[i..][1..]; }
    TuneFrom(was, i, best, proposal);
    hide TuneKnob, TuneChain;
    var first := TuneKnob(now[i], best, proposal);
    var next := now[i := first.0];
    var rest := was[i + 1..];
    assert next[..i + 1] == now[..i] + [first.0] && next[i + 1..] == rest;
    if first.1 {
      var others := TuneChain(rest, first.0.bestScore, proposal).0;
      assert now[..i] + ([first.0] + others) == next[..i + 1] + others;
    } else {
      assert now[..i] + ([first.0] + rest) == next;
    }
  }

  lemma {:induction false} TuneFrom(chain: seq<Knob>, i: nat, score: real, proposal: Setting)
    requires i < |chain|
    ensures
      var first, rest := TuneKnob(chain[i], score, proposal), chain[i + 1..];
      var others := TuneChain(rest, first.0.bestScore, proposal);
      TuneChain(chain[i..], score, proposal) == if first.1 then ([first.0] + others.0, others.1)
        else ([first.0] + rest, false)
  {
    assert chain[i..][1..] == chain[i + 1..];
  }

  lemma {:induction false} PassAll(was: seq<Knob>, score: real, proposal: Setting, now: seq<Knob>, best: real)
    requires Passed(was, score, proposal, now, |now|, best)
    ensures TuneChain(was, score, proposal) == (now, true)
  {
    assert was[|was|..] == [] && now[..|now|] + [] == now;
  }

  /** Tuning stops going down the chain at the first parameter that is not through. */
  method TuneInTurn(chain: seq<TunableParameter>, score: real, proposal: Setting) returns (finished: bool)
    requires Different(chain)
    modifies chain
    ensures (Views(chain), finished) == TuneChain(old(Views(chain)), score, proposal)
  {
    hide TuneChain, TuneKnob, Passed, Views;
    ghost var was := Views(chain);
    finished := true;
    var bestScore := score;
    var i := 0;
    PassNone(was, score, proposal);
    while i < |chain|
      invariant i <= |chain| && Passed(was, score, proposal, Views(chain), i, bestScore)
    {
      ghost var now := Views(chain);
      PassNext(was, score, proposal, now, i, bestScore);
      var newBestScore, through := chain[i].Tune(bestScore, proposal);
      assert Views(chain) == now[i := chain[i].View()];
      if !through { return false; }
      bestScore := newBestScore;
      i := i + 1;
    }
    PassAll(was, score, proposal, Views(chain), bestScore);
  }

  /** A value for `score` that a cycle's measurements yield: the median of the samples. */
  function Median(scores: seq<real>, p: Progress, names: seq<string>, steps: nat, measured: real): real
    requires |scores| == SAMPLES && p.sample < SAMPLES
  {
    var recorded := if CountTensors(p, names, steps).sample > p.sample then scores[p.sample := measured] else scores;
    Sort(recorded)[SAMPLES / 2]
  }

  function NotAbove(s: seq<real>, x: real): nat {
    if s == [] then 0 else (if s[0] <= x then 1 else 0) + NotAbove(s[1..], x)
  }

  function NotBelow(s: seq<real>, x: real): nat {
    if s == [] then 0 else (if s[0] >= x then 1 else 0) + NotBelow(s[1..], x)
  }

  lemma {:induction false} InsertCounts(y: real, s: seq<real>, x: real)
    ensures NotAbove(Insert(y, s), x) == NotAbove(s, x) + (if y <= x then 1 else 0)
    ensures NotBelow(Insert(y, s), x) == NotBelow(s, x) + (if y >= x then 1 else 0)
  {
    if s != [] && y > s[0] {
      InsertCounts(y, s[1..], x);
      assert Insert(y, s)[1..] == Insert(y, s[1..]);
    } else {
      assert Insert(y, s)[1..] == s;
    }
  }

  lemma {:induction false} SortCounts(s: seq<real>, x: real)
    ensures NotAbove(Sort(s), x) == NotAbove(s, x) && NotBelow(Sort(s), x) == NotBelow(s, x)
  {
    if s != [] {
      SortCounts(s[1..], x);
      InsertCounts(s[0], Sort(s[1..]), x);
    }
  }

  lemma {:induction false} NoneBelow(s: seq<real>, x: real)
    requires forall y :: y in s ==> x <= y
    ensures NotBelow(s, x) == |s|
  {
    if s != [] {
      assert s[0] in s;
      forall y | y in s[1..] ensures x <= y { assert y in s; }
      NoneBelow(s[1..], x);
    }
  }

  /** As many scores are not above the one at place k as come up to it, and the others are not below it. */
  lemma {:induction false} InOrderCounts(s: seq<real>, k: nat)
    requires InOrder(s) && k < |s|
    ensures NotAbove(s, s[k]) >= k + 1 && NotBelow(s, s[k]) >= |s| - k
  {
    if k > 0 {
      assert s[k] == s[1..][k - 1] && s[1..][k - 1] in s[1..];
      InOrderCounts(s[1..], k - 1);
    } else {
      NoneBelow(s[1..], s[0]);
    }
  }

  lemma {:induction false} SortMember(s: seq<real>, x: real)
    requires x in Sort(s)
    ensures x in s
  {
    assert x in multiset(Sort(s));
  }

  /** A cycle completes at most one sample. */
  lemma {:induction false} SampleGrows(p: Progress, names: seq<string>, steps: nat)
    ensures p.sample <= CountTensors(p, names, steps).sample <= p.sample + 1
    decreases |names|
  {
    if names != [] {
      var step := if names[0] in p.counts then p.counts[names[0]] else 0;
      if step < (p.sample + 1) * steps { SampleGrows(p.(counts := p.counts[names[0] := step + 1]), names[1..], steps); }
    }
  }

  lemma {:induction false} SortMiddle(s: seq<real>)
    requires |s| == 5
    ensures
      var m := Sort(s)[2];
      m in s && NotAbove(s, m) >= 3 && NotBelow(s, m) >= 3
  {
    var sorted := Sort(s);
    SortMember(s, sorted[2]);
    InOrderCounts(sorted, 2);
    SortCounts(s, sorted[2]);
  }

  /** When the fifth sample is complete, the score is one of the five: three are not above it, and three not below. */
  lemma {:induction false} MedianMiddle(scores: seq<real>, p: Progress, names: seq<string>, steps: nat, measured: real)
    requires |scores| == 5 && p.sample < 5 && CountTensors(p, names, steps).sample == 5
    ensures
      var recorded, m := scores[4 := measured], Median(scores, p, names, steps, measured);
      m in recorded && NotAbove(recorded, m) >= 3 && NotBelow(recorded, m) >= 3
  {
    SampleGrows(p, names, steps);
    hide Sort, NotAbove, NotBelow, CountTensors;
    SortMiddle(scores[4 := measured]);
  }

  class ParameterManager {
    const root: bool
    const warmups: nat
    const stepsPerSample: nat
    const scores: array<real>
    const parameterChain: seq<TunableParameter>   // joint, allreduce, allgather, cache
    var fixedValues: map<Variable, real>
    var active: bool
    var warmupRemaining: nat
    var sample: nat
    var tensorCounts: map<string, nat>

    ghost predicate Valid()
      reads this
    {
      |parameterChain| == 4 && Different(parameterChain) && scores.Length == SAMPLES
    }

    ghost function View(): Manager
      reads this, parameterChain
    {
      Manager(root, warmups, stepsPerSample, Progress(active, warmupRemaining, sample, tensorCounts),
        Views(parameterChain), fixedValues)
    }

    constructor (root: bool, warmups: nat, stepsPerSample: nat, chain: seq<TunableParameter>)
      requires |chain| == 4 && Different(chain)
      ensures Valid() && parameterChain == chain && fresh(scores)
      ensures View() == Manager(root, warmups, stepsPerSample, Progress(false, warmups, 0, map[]), Views(chain), map[])
    {
      this.root, this.warmups, this.stepsPerSample := root, warmups, stepsPerSample;
      parameterChain := chain;
      scores := new real[SAMPLES](i => 0.0);
      fixedValues, active, warmupRemaining, sample, tensorCounts := map[], false, warmups, 0, map[];
    }

    method SetAutoTuning(active: bool)
      requires Valid()
      modifies this`active, this`warmupRemaining
      ensures View() == TuningRounds.SetAutoTuning(old(View()), active)
    {
      if active != this.active { warmupRemaining := warmups; }
      this.active := active;
    }

    method Reset()
      requires Valid()
      modifies this`tensorCounts, this`sample
      ensures View() == old(View()).(progress := TuningRounds.Reset(old(View()).progress))
    {
      tensorCounts := map[];
      sample := 0;
    }

    /** Reacts to a completed set of samples; returns whether parameters must be broadcast. */
    method Tune(score: real, proposal: Setting) returns (sync: bool)
      requires Valid()
      modifies this`active, this`warmupRemaining, this`tensorCounts, this`sample, parameterChain
      ensures
        var m := old(View());
        if m.progress.warmupRemaining > 0 then
          !sync && View()
            == m.(progress := TuningRounds.Reset(m.progress.(warmupRemaining := m.progress.warmupRemaining - 1)))
        else
          var tuned := TuneChain(m.chain, score, proposal);
          sync && View() == (if !m.root then m
                             else if tuned.1 then TuningRounds.SetAutoTuning(m.(chain := tuned.0), false)
                             else m.(chain := tuned.0))
    {
      if warmupRemaining > 0 {
        warmupRemaining := warmupRemaining - 1;
      } else {
        if root {
          var finished := TuneInTurn(parameterChain, score, proposal);
          if finished { SetAutoTuning(false); }
        }
        return true;
      }
      Reset();
      sync := false;
    }

    method SortScores()
      requires Valid()
      modifies scores
      ensures scores[..] == Sort(old(scores[..]))
    {
      var sorted := Sort(scores[..]);
      forall i | 0 <= i < SAMPLES { scores[i] := sorted[i]; }
    }

    /** Counts tensors; the one that completes a sample records its throughput. */
    method CountNames(tensorNames: seq<string>, measured: real)
      requires Valid() && sample < SAMPLES
      modifies this`tensorCounts, this`sample, scores
      ensures Progress(active, warmupRemaining, sample, tensorCounts)
        == CountTensors(old(View()).progress, tensorNames, stepsPerSample)
      ensures old(sample) <= sample <= old(sample) + 1
      ensures scores[..] == if sample > old(sample) then old(scores[..])[old(sample) := measured] else old(scores[..])
    {
      ghost var p := View().progress;
      var i := 0;
      assert tensorNames[0..] == tensorNames;
      while i < |tensorNames|
        modifies this`tensorCounts, this`sample, scores
        invariant i <= |tensorNames| && sample == p.sample && scores[..] == old(scores[..])
        invariant CountTensors(p, tensorNames, stepsPerSample)
          == CountTensors(p.(counts := tensorCounts), tensorNames[i..], stepsPerSample)
      {
        var name := tensorNames[i];
        var step := if name in tensorCounts then tensorCounts[name] else 0;
        assert tensorNames[i..][0] == name && tensorNames[i..][1..] == tensorNames[i + 1..];
        tensorCounts := tensorCounts[name := step + 1];
        if step >= (sample + 1) * stepsPerSample {
          scores[sample] := measured;
          sample := sample + 1;
          return;
        }
        i := i + 1;
      }
    }

    /** Takes in a cycle's tensors; `measured` is the throughput since the last sample. */
    method Update(tensorNames: seq<string>, measured: real, proposal: Setting) returns (sync: bool)
      requires Valid() && sample < SAMPLES
      modifies this`active, this`warmupRemaining, this`tensorCounts, this`sample, scores, parameterChain
      ensures (View(), sync) == TuningRounds.Update(old(View()), tensorNames,
        Median(old(scores[..]), old(View()).progress, tensorNames, stepsPerSample, measured), proposal)
    {
      hide CountTensors, TuneChain, Sort, TuningRounds.SetAutoTuning;
      if !active { return false; }
      ghost var was := View();
      CountKeeps(was.progress, tensorNames, stepsPerSample);
      CountNames(tensorNames, measured);
      ghost var counted := CountTensors(was.progress, tensorNames, stepsPerSample);
      assert View() == was.(progress := counted);
      if sample >= SAMPLES {
        SortScores();
        sync := Tune(scores[SAMPLES / 2], proposal);
      } else {
        sync := false;
      }
    }

    /** The parameters the root sends. */
    method GetParams() returns (p: Params)
      requires Valid() && WellFormed(View())
      ensures p == Effective(View())
    {
      var joint, allreduce, allgather, cache := parameterChain[0], parameterChain[1], parameterChain[2],
        parameterChain[3];
      if active {
        p := Params(allreduce.value.on, allgather.value.on, cache.value.on,
                    if FusionThreshold in fixedValues then fixedValues[FusionThreshold] else joint.value.threshold,
                    if CycleTime in fixedValues then fixedValues[CycleTime] else joint.value.cycleTime,
                    active);
      } else {
        p := Params(allreduce.bestValue.on, allgather.bestValue.on, cache.bestValue.on,
                    if FusionThreshold in fixedValues then fixedValues[FusionThreshold] else joint.bestValue.threshold,
                    if CycleTime in fixedValues then fixedValues[CycleTime] else joint.bestValue.cycleTime,
                    active);
      }
    }

    /** The fusion threshold, read as in the parameters and turned into bytes. */
    method TensorFusionThresholdBytes() returns (bytes: int)
      requires Valid() && WellFormed(View())
      ensures bytes == TuningRounds.ToBytes(Effective(View()).threshold)
    {
      var joint := parameterChain[0];
      var b: real;
      if FusionThreshold in fixedValues {
        b := fixedValues[FusionThreshold];
      } else {
        var setting := if active then joint.value else joint.bestValue;
        b := setting.threshold;
      }
      b := b * 1024.0 * 1024.0;
      bytes := if b >= 0.0 then b.Floor else -((-b).Floor);
    }

    /** What the other ranks do with them. */
    method SetParams(p: Params)
      requires Valid() && WellFormed(View())
      modifies this`fixedValues, this`active, parameterChain
      ensures View() == TuningRounds.SetParams(old(View()), p)
    {
      ghost var was := View();
      parameterChain[1].SetValue(Flag(p.allreduce), true);
      parameterChain[2].SetValue(Flag(p.allgather), true);
      parameterChain[3].SetValue(Flag(p.cache), true);
      fixedValues := fixedValues[FusionThreshold := p.threshold];
      fixedValues := fixedValues[CycleTime := p.cycleTime];
      active := p.active;
      assert Views(parameterChain) == TuningRounds.SetParams(was, p).chain;
    }

    /** The end of the broadcast on one rank. */
    method SynchronizeParameters(received: Params)
      requires Valid() && WellFormed(View())
      modifies this`fixedValues, this`active, this`tensorCounts, this`sample, parameterChain
      ensures View() == Synchronize(old(View()), received)
    {
      if !root { SetParams(received); }
      Reset();
    }
  }
}
