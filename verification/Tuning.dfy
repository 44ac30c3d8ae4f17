/**
  The chain of tuned parameters as values.  Each round tries the settings in force; a parameter that
  has been through all its settings hands over to the next one, like the wheels of an odometer.
 */
module Tuning {
  import opened Arithmetic

  datatype Setting = Flag(on: bool) | Point(threshold: real, cycleTime: real)

  /** Categorical parameters try their values in turn.  The joint one tries given points first, then proposals. */
  datatype Kind = Choices(values: seq<Setting>) | Joint(maxSamples: nat, testPoints: seq<Setting>)

  datatype Knob = Knob(
    kind: Kind,
    tunable: bool,
    index: nat,
    value: Setting,
    initial: Setting,
    best: Setting,
    bestScore: real)

  function Rounds(k: Knob): nat {
    match k.kind
    case Choices(values) => |values|
    case Joint(maxSamples, _) => maxSamples + 1
  }

  /** The setting tried at position `index`; proposals come from the Bayesian optimiser. */
  function NextSetting(kind: Kind, index: nat, proposal: Setting): Setting {
    match kind
    case Choices(values) => if index < |values| then values[index] else proposal
    case Joint(_, points) => if index < |points| then points[index] else proposal
  }

  function UpdateBest(k: Knob, score: real): Knob {
    if score > k.bestScore then k.(bestScore := score, best := k.value) else k
  }

  /** One parameter's reaction to a score, and whether it is through. */
  function TuneKnob(k: Knob, score: real, proposal: Setting): (Knob, bool) {
    var u := UpdateBest(k, score);
    if !k.tunable then (u, true)
    else if k.index + 1 >= Rounds(k) then (u.(index := 0, value := u.initial), true)
    else (u.(index := k.index + 1, value := NextSetting(k.kind, k.index + 1, proposal)), false)
  }

  function TuneChain(chain: seq<Knob>, score: real, proposal: Setting): (r: (seq<Knob>, bool))
    ensures |r.0| == |chain|
  {
    if chain == [] then ([], true)
    else
      var first := TuneKnob(chain[0], score, proposal);
      if !first.1 then ([first.0] + chain[1..], false)
      else
        var others := TuneChain(chain[1..], first.0.bestScore, proposal);
        ([first.0] + others.0, others.1)
  }

  function Values(chain: seq<Knob>): (s: seq<Setting>)
    ensures |s| == |chain| && forall i :: 0 <= i < |chain| ==> s[i] == chain[i].value
  {
    seq(|chain|, i requires 0 <= i < |chain| => chain[i].value)
  }

  function BestValues(chain: seq<Knob>): (s: seq<Setting>)
    ensures |s| == |chain| && forall i :: 0 <= i < |chain| ==> s[i] == chain[i].best
  {
    seq(|chain|, i requires 0 <= i < |chain| => chain[i].best)
  }

  // ---------------------------------------------------------------------
  // The odometer
  // ---------------------------------------------------------------------

  /** How often a parameter must be tuned to come round. */
  function Size(k: Knob): (n: nat)
  {
    if k.tunable then Rounds(k) else 1
  }

  /** Rounds until the whole chain comes round. */
  function Cycle(chain: seq<Knob>): nat {
    if chain == [] then 1 else Size(chain[0]) * Cycle(chain[1..])
  }

  /** The odometer's reading. */
  function Count(chain: seq<Knob>): nat {
    if chain == [] then 0
    else (if chain[0].tunable then chain[0].index else 0) + Size(chain[0]) * Count(chain[1..])
  }

  /** Positions are in range, and a categorical parameter holds the value at its position. */
  ghost predicate Placed(k: Knob) {
    && Rounds(k) > 0
    && (k.tunable ==> k.index < Rounds(k))
    && (k.tunable && k.kind.Choices? ==> k.value == k.kind.values[k.index] && k.initial == k.kind.values[0])
  }

  ghost predicate AllPlaced(chain: seq<Knob>) {
    forall i :: 0 <= i < |chain| ==> Placed(chain[i])
  }

  /** Everything but positions, values and scores stays. */
  ghost predicate SameShape(a: seq<Knob>, b: seq<Knob>) {
    && |a| == |b|
    && forall i :: 0 <= i < |a| ==>
      a[i].kind == b[i].kind && a[i].tunable == b[i].tunable && a[i].initial == b[i].initial
  }

  lemma {:induction false} SameCycle(a: seq<Knob>, b: seq<Knob>)
    requires SameShape(a, b)
    ensures Cycle(a) == Cycle(b)
  {
    if a != [] { SameCycle(a[1..], b[1..]); }
  }

  lemma {:induction false} CountBelow(chain: seq<Knob>)
    requires AllPlaced(chain)
    ensures Count(chain) < Cycle(chain)
  {
    if chain != [] {
      CountBelow(chain[1..]);
      Digits(Size(chain[0]), if chain[0].tunable then chain[0].index else 0, Count(chain[1..]), Cycle(chain[1..]));
    }
  }

  lemma {:induction false} Digits(n: nat, d: nat, c: nat, m: nat)
    requires d < n && c < m
    ensures d + n * c < n * m
  {
    assert n * (m - c - 1) >= 0;
    assert n * m == n * c + n + n * (m - c - 1);
  }

  lemma {:induction false} TunedPlaced(k: Knob, score: real, proposal: Setting)
    requires Placed(k)
    ensures
      var r := TuneKnob(k, score, proposal);
      && Placed(r.0) && r.0.kind == k.kind && r.0.tunable == k.tunable && r.0.initial == k.initial
        && Size(r.0) == Size(k)
      && (r.1 ==> (k.tunable ==> k.index == Rounds(k) - 1 && r.0.index == 0))
      && (!r.1 ==> k.tunable && r.0.index == k.index + 1 < Rounds(k))
  {
  }

  lemma {:induction false} PlacedCons(k: Knob, rest: seq<Knob>, l: Knob, others: seq<Knob>)
    requires AllPlaced(others) && Placed(l) && SameShape(rest, others)
    requires l.kind == k.kind && l.tunable == k.tunable && l.initial == k.initial
    ensures AllPlaced([l] + others) && SameShape([k] + rest, [l] + others)
  {
  }

  lemma {:induction false} CountCons(k: Knob, rest: seq<Knob>)
    ensures Count([k] + rest) == (if k.tunable then k.index else 0) + Size(k) * Count(rest)
    ensures Cycle([k] + rest) == Size(k) * Cycle(rest)
  {
    assert ([k] + rest)[1..] == rest;
  }

  /** A round turns the odometer by one; it is through exactly when it comes round. */
  lemma {:induction false} TuneCounts(chain: seq<Knob>, score: real, proposal: Setting)
    requires AllPlaced(chain)
    ensures
      var r := TuneChain(chain, score, proposal);
      && AllPlaced(r.0) && SameShape(chain, r.0)
      && (r.1 <==> Count(chain) + 1 == Cycle(chain))
      && Count(r.0) == (if r.1 then 0 else Count(chain) + 1)
  {
    if chain != [] {
      var k, rest := chain[0], chain[1..];
      assert chain == [k] + rest && Placed(k) && AllPlaced(rest);
      var first := TuneKnob(k, score, proposal);
      TunedPlaced(k, score, proposal);
      CountBelow(rest);
      CountCons(k, rest);
      if first.1 {
        TuneCounts(rest, first.0.bestScore, proposal);
        var others := TuneChain(rest, first.0.bestScore, proposal);
        PlacedCons(k, rest, first.0, others.0);
        CountCons(first.0, others.0);
        hide Placed, AllPlaced, Count, Cycle, Size, Rounds, TuneKnob;
        TurnedOver(k, first.0, Count(rest), Count(others.0), Cycle(rest), others.1);
      } else {
        PlacedCons(k, rest, first.0, rest);
        CountCons(first.0, rest);
        hide Placed, AllPlaced, Count, Cycle, TuneKnob;
        Digits(Size(k), k.index + 1, Count(rest), Cycle(rest));
      }
    }
  }

  lemma {:induction false} TurnedOver(k: Knob, l: Knob, c: nat, d: nat, m: nat, through: bool)
    requires Rounds(k) > 0 && Size(l) == Size(k) && l.tunable == k.tunable && c < m
    requires k.tunable ==> k.index == Rounds(k) - 1 && l.index == 0
    requires (through <==> c + 1 == m) && d == (if through then 0 else c + 1)
    ensures through <==> (if k.tunable then k.index else 0) + Size(k) * c + 1 == Size(k) * m
    ensures (if l.tunable then l.index else 0) + Size(l) * d
      == if through then 0 else (if k.tunable then k.index else 0) + Size(k) * c + 1
  {
    Carry(Size(k), c, m);
  }

  lemma {:induction false} Carry(n: nat, c: nat, m: nat)
    requires n >= 1 && c < m
    ensures n - 1 + n * c + 1 == n * (c + 1)
    ensures n * (c + 1) == n * m <==> c + 1 == m
  {
    if c + 1 < m { Digits(n, 0, c + 1, m); }
  }

  // ---------------------------------------------------------------------
  // Whole runs
  // ---------------------------------------------------------------------

  /** The chain after one round per score. */
  function RunChain(chain: seq<Knob>, scores: seq<real>, proposals: seq<Setting>): (r: seq<Knob>)
    requires |scores| == |proposals|
    ensures |r| == |chain|
  {
    if scores == [] then chain
    else
      var n := |scores| - 1;
      TuneChain(RunChain(chain, scores[..n], proposals[..n]), scores[n], proposals[n]).0
  }

  /** Whether the last round reports that tuning is through. */
  predicate Finished(chain: seq<Knob>, scores: seq<real>, proposals: seq<Setting>)
    requires |scores| == |proposals| && scores != []
  {
    var n := |scores| - 1;
    TuneChain(RunChain(chain, scores[..n], proposals[..n]), scores[n], proposals[n]).1
  }

  /** The settings in force in round j. */
  function InForce(chain: seq<Knob>, scores: seq<real>, proposals: seq<Setting>, j: nat): seq<Setting>
    requires |scores| == |proposals| && j <= |scores|
  {
    Values(RunChain(chain, scores[..j], proposals[..j]))
  }

  /** The odometer counts the rounds, and tuning is through after exactly one full cycle. */
  lemma {:induction false} RunCounts(chain: seq<Knob>, scores: seq<real>, proposals: seq<Setting>)
    requires AllPlaced(chain) && Count(chain) == 0 && |scores| == |proposals| <= Cycle(chain)
    ensures
      var r := RunChain(chain, scores, proposals);
      && AllPlaced(r) && SameShape(chain, r)
      && Count(r) == (if |scores| == Cycle(chain) then 0 else |scores|)
      && (scores != [] ==> (Finished(chain, scores, proposals) <==> |scores| == Cycle(chain)))
  {
    CountBelow(chain);
    if scores != [] {
      var n := |scores| - 1;
      RunCounts(chain, scores[..n], proposals[..n]);
      var before := RunChain(chain, scores[..n], proposals[..n]);
      SameCycle(chain, before);
      TuneCounts(before, scores[n], proposals[n]);
    }
  }

  // ---------------------------------------------------------------------
  // Every combination is tried
  // ---------------------------------------------------------------------

  /** One position for every parameter. */
  ghost predicate Positions(chain: seq<Knob>, digits: seq<nat>) {
    |digits| == |chain| && forall i :: 0 <= i < |chain| && chain[i].tunable ==> digits[i] < Rounds(chain[i])
  }

  function Code(chain: seq<Knob>, digits: seq<nat>): nat
    requires |digits| == |chain|
  {
    if chain == [] then 0
    else (if chain[0].tunable then digits[0] else 0) + Size(chain[0]) * Code(chain[1..], digits[1..])
  }

  lemma {:induction false} CodeBelow(chain: seq<Knob>, digits: seq<nat>)
    requires AllPlaced(chain) && Positions(chain, digits)
    ensures Code(chain, digits) < Cycle(chain)
  {
    if chain != [] {
      CodeBelow(chain[1..], digits[1..]);
      assert Placed(chain[0]);
      Digits(Size(chain[0]), if chain[0].tunable then digits[0]
        else 0, Code(chain[1..], digits[1..]), Cycle(chain[1..]));
    }
  }

  lemma {:induction false} SameDigits(n: nat, a: nat, b: nat, c: nat, d: nat)
    requires a < n && b < n && a + n * c == b + n * d
    ensures a == b && c == d
  {
    Spread(n, c, d);
    Spread(n, d, c);
  }

  /** The reading determines the positions. */
  lemma {:induction false} CountDetermines(chain: seq<Knob>, digits: seq<nat>)
    requires AllPlaced(chain) && Positions(chain, digits) && Count(chain) == Code(chain, digits)
    ensures forall i :: 0 <= i < |chain| && chain[i].tunable ==> chain[i].index == digits[i]
  {
    if chain != [] {
      var k := chain[0];
      assert Placed(k);
      SameDigits(Size(k), if k.tunable then k.index else 0, if k.tunable then digits[0]
        else 0, Count(chain[1..]), Code(chain[1..], digits[1..]));
      CountDetermines(chain[1..], digits[1..]);
      forall i | 0 <= i < |chain| && chain[i].tunable ensures chain[i].index == digits[i] {
        if i > 0 { assert chain[1..][i - 1] == chain[i] && digits[1..][i - 1] == digits[i]; }
      }
    }
  }

  lemma {:induction false} SameCode(a: seq<Knob>, b: seq<Knob>, digits: seq<nat>)
    requires SameShape(a, b) && |digits| == |a|
    ensures Code(a, digits) == Code(b, digits)
  {
    if a != [] { SameCode(a[1..], b[1..], digits[1..]); }
  }

  /** In the course of a full cycle every combination of positions comes up: this is its round. */
  lemma {:induction false} EveryCombination(chain: seq<Knob>, scores: seq<real>, proposals: seq<Setting>,
      digits: seq<nat>)
    requires AllPlaced(chain) && Count(chain) == 0 && |scores| == |proposals| == Cycle(chain)
      && Positions(chain, digits)
    ensures
      var j := Code(chain, digits);
      && j < |scores|
      && var r := RunChain(chain, scores[..j], proposals[..j]);
         forall i :: 0 <= i < |chain| && chain[i].tunable ==>
           r[i].index == digits[i]
             && (chain[i].kind.Choices? ==> InForce(chain, scores, proposals, j)[i] == chain[i].kind.values[digits[i]])
  {
    var j := Code(chain, digits);
    CodeBelow(chain, digits);
    RunCounts(chain, scores[..j], proposals[..j]);
    var r := RunChain(chain, scores[..j], proposals[..j]);
    SameCode(chain, r, digits);
    CountDetermines(r, digits);
    forall i | 0 <= i < |chain| && chain[i].tunable
      ensures r[i].index == digits[i]
        && (chain[i].kind.Choices? ==> InForce(chain, scores, proposals, j)[i] == chain[i].kind.values[digits[i]])
    {
      assert Placed(r[i]);
    }
  }

  // ---------------------------------------------------------------------
  // The last wheel
  // ---------------------------------------------------------------------

  lemma {:induction false} CycleFront(chain: seq<Knob>)
    requires chain != []
    ensures Cycle(chain) == Cycle(chain[..|chain| - 1]) * Size(chain[|chain| - 1])
  {
    var front, last := chain[..|chain| - 1], chain[|chain| - 1];
    if |chain| == 1 {
      assert chain[1..] == [] && front == [];
    } else {
      CycleFront(chain[1..]);
      assert chain[1..][..|chain| - 2] == front[1..];
      Regroup(Size(chain[0]), Cycle(front[1..]), Size(last));
    }
  }

  lemma {:induction false} Regroup(a: nat, b: nat, c: nat)
    ensures a * (b * c) == a * b * c
  {
  }

  /** A last parameter of two values takes the second one in the second half of the cycle. */
  lemma {:induction false} LastPosition(chain: seq<Knob>)
    requires AllPlaced(chain) && chain != []
    requires chain[|chain| - 1].tunable && Rounds(chain[|chain| - 1]) == 2
    ensures chain[|chain| - 1].index == (if 2 * Count(chain) >= Cycle(chain) then 1 else 0)
  {
    var k, rest := chain[0], chain[1..];
    assert Placed(k);
    if rest == [] {
      assert Size(k) * Count([]) == 0;
    } else {
      var d, n, c, m := if k.tunable then k.index else 0, Size(k), Count(rest), Cycle(rest[..|rest| - 1]);
      LastPosition(rest);
      CycleFront(rest);
      CountBelow(rest);
      assert rest[|rest| - 1] == chain[|chain| - 1];
      HalfWay(n, d, c, m);
    }
  }

  lemma {:induction false} HalfWay(n: nat, d: nat, c: nat, m: nat)
    requires d < n
    ensures 2 * (d + n * c) >= n * (m * 2) <==> 2 * c >= m * 2
  {
    Regroup(n, m, 2);
    if c >= m {
      assert n * (c - m) >= 0;
      assert n * c == n * m + n * (c - m);
    } else {
      Digits(n, d, c, m);
    }
  }

  /** The last parameter goes from the first of its two values to the second exactly once, half-way through. */
  lemma {:induction false} LastTurnsOnce(chain: seq<Knob>, scores: seq<real>, proposals: seq<Setting>, j: nat)
    requires AllPlaced(chain) && Count(chain) == 0 && chain != []
    requires |scores| == |proposals| <= Cycle(chain) && j <= |scores| && j < Cycle(chain)
    requires chain[|chain| - 1].tunable && chain[|chain| - 1].kind.Choices? && |chain[|chain| - 1].kind.values| == 2
    ensures
      var values := chain[|chain| - 1].kind.values;
      InForce(chain, scores, proposals, j)[|chain| - 1] == if 2 * j >= Cycle(chain) then values[1] else values[0]
  {
    RunCounts(chain, scores[..j], proposals[..j]);
    var r := RunChain(chain, scores[..j], proposals[..j]);
    SameCycle(chain, r);
    LastPosition(r);
    assert Placed(r[|r| - 1]);
  }

  /** A parameter that is not tuned, and is given as best, keeps its value. */
  lemma {:induction false} FixedStays(chain: seq<Knob>, scores: seq<real>, proposals: seq<Setting>, i: nat)
    requires |scores| == |proposals| && i < |chain| && !chain[i].tunable && chain[i].value == chain[i].best
    ensures
      var k := RunChain(chain, scores, proposals)[i];
      !k.tunable && k.value == k.best == chain[i].value
  {
    if scores != [] {
      var n := |scores| - 1;
      FixedStays(chain, scores[..n], proposals[..n], i);
      FixedTuned(RunChain(chain, scores[..n], proposals[..n]), scores[n], proposals[n], i);
    }
  }

  lemma {:induction false} FixedTuned(chain: seq<Knob>, score: real, proposal: Setting, i: nat)
    requires i < |chain| && !chain[i].tunable && chain[i].value == chain[i].best
    ensures
      var k := TuneChain(chain, score, proposal).0[i];
      !k.tunable && k.value == k.best == chain[i].value
  {
    var first := TuneKnob(chain[0], score, proposal);
    if i > 0 && first.1 { FixedTuned(chain[1..], first.0.bestScore, proposal, i - 1); }
  }

  // ---------------------------------------------------------------------
  // The best combination is kept
  // ---------------------------------------------------------------------

  /** The best score so far and the settings in force when it was first reached. */
  datatype Peak = Peak(score: real, settings: seq<Setting>)

  function NextPeak(p: Peak, score: real, inForce: seq<Setting>): Peak {
    if score > p.score then Peak(score, inForce) else p
  }

  ghost predicate UpToDate(k: Knob, score: real, setting: Setting) {
    k.bestScore == score && k.best == setting
  }

  /** A parameter that has not heard of the peak yet still holds the setting of the peak. */
  ghost predicate Tracks(k: Knob, score: real, setting: Setting) {
    UpToDate(k, score, setting) || (k.bestScore < score && k.value == setting)
  }

  ghost predicate AllTrack(chain: seq<Knob>, p: Peak) {
    |p.settings| == |chain| && forall i :: 0 <= i < |chain| ==> Tracks(chain[i], p.score, p.settings[i])
  }

  ghost predicate AllUpToDate(chain: seq<Knob>, p: Peak) {
    |p.settings| == |chain| && forall i :: 0 <= i < |chain| ==> UpToDate(chain[i], p.score, p.settings[i])
  }

  /** Handing the peak score down the chain brings every parameter it reaches up to date. */
  lemma {:induction false} TuneTracks(chain: seq<Knob>, score: real, proposal: Setting, p: Peak)
    requires AllTrack(chain, p) && score <= p.score
    requires chain == [] || score == p.score || UpToDate(chain[0], p.score, p.settings[0])
    ensures
      var r := TuneChain(chain, score, proposal);
      && AllTrack(r.0, p)
      && (chain != [] ==> UpToDate(r.0[0], p.score, p.settings[0]))
      && (r.1 ==> AllUpToDate(r.0, p))
  {
    if chain != [] {
      var k, rest := chain[0], chain[1..];
      assert Tracks(k, p.score, p.settings[0]);
      var first := TuneKnob(k, score, proposal);
      assert UpToDate(first.0, p.score, p.settings[0]);
      if first.1 {
        TuneTracks(rest, first.0.bestScore, proposal, Peak(p.score, p.settings[1..]));
      }
    }
  }

  /** The peak of a run that starts with the common best score of the chain. */
  function PeakOf(chain: seq<Knob>, start: real, scores: seq<real>, proposals: seq<Setting>): Peak
    requires |scores| == |proposals|
  {
    if scores == [] then Peak(start, BestValues(chain))
    else
      var n := |scores| - 1;
      NextPeak(PeakOf(chain, start, scores[..n], proposals[..n]), scores[n],
        Values(RunChain(chain, scores[..n], proposals[..n])))
  }

  /** Round j is the first to reach the peak. */
  ghost predicate FirstAt(chain: seq<Knob>, scores: seq<real>, proposals: seq<Setting>, p: Peak, j: nat) {
    && |scores| == |proposals| && j < |scores| && scores[j] == p.score
      && p.settings == InForce(chain, scores, proposals, j)
    && forall i :: 0 <= i < j ==> scores[i] < p.score
  }

  lemma {:induction false} FirstAtLonger(chain: seq<Knob>, scores: seq<real>, proposals: seq<Setting>, n: nat, p: Peak,
      j: nat)
    requires |scores| == |proposals| && n <= |scores| && FirstAt(chain, scores[..n], proposals[..n], p, j)
    ensures FirstAt(chain, scores, proposals, p, j)
  {
    assert scores[..n][..j] == scores[..j] && proposals[..n][..j] == proposals[..j];
    forall i | 0 <= i < j ensures scores[i] < p.score { assert scores[..n][i] == scores[i]; }
  }

  /** The peak is the first round with the highest score, provided that beats the start. */
  lemma {:induction false} PeakMeans(chain: seq<Knob>, start: real, scores: seq<real>, proposals: seq<Setting>)
    requires |scores| == |proposals|
    ensures
      var p := PeakOf(chain, start, scores, proposals);
      && start <= p.score && (forall j :: 0 <= j < |scores| ==> scores[j] <= p.score)
      && (if p.score == start then p.settings == BestValues(chain)
        else exists j :: FirstAt(chain, scores, proposals, p, j))
  {
    if scores != [] {
      var n := |scores| - 1;
      PeakMeans(chain, start, scores[..n], proposals[..n]);
      var q := PeakOf(chain, start, scores[..n], proposals[..n]);
      forall j | 0 <= j < n ensures scores[j] <= q.score { assert scores[..n][j] == scores[j]; }
      if scores[n] > q.score {
        assert FirstAt(chain, scores, proposals, PeakOf(chain, start, scores, proposals), n);
      } else if q.score != start {
        var j :| FirstAt(chain, scores[..n], proposals[..n], q, j);
        FirstAtLonger(chain, scores, proposals, n, q, j);
      }
    }
  }

  lemma {:induction false} RunTracks(chain: seq<Knob>, start: real, scores: seq<real>, proposals: seq<Setting>)
    requires |scores| == |proposals| && forall i :: 0 <= i < |chain| ==> chain[i].bestScore == start
    ensures
      var r, p := RunChain(chain, scores, proposals), PeakOf(chain, start, scores, proposals);
      && AllTrack(r, p) && (chain != [] ==> UpToDate(r[0], p.score, p.settings[0]))
      && (scores != [] && Finished(chain, scores, proposals) ==> AllUpToDate(r, p))
  {
    if scores != [] {
      var n := |scores| - 1;
      RunTracks(chain, start, scores[..n], proposals[..n]);
      var before, q := RunChain(chain, scores[..n], proposals[..n]), PeakOf(chain, start, scores[..n], proposals[..n]);
      PeakTracked(before, q, scores[n]);
      TuneTracks(before, scores[n], proposals[n], NextPeak(q, scores[n], Values(before)));
    }
  }

  /** A new peak catches every parameter with the setting it holds. */
  lemma {:induction false} PeakTracked(chain: seq<Knob>, q: Peak, score: real)
    requires AllTrack(chain, q) && (chain != [] ==> UpToDate(chain[0], q.score, q.settings[0]))
    ensures
      var p := NextPeak(q, score, Values(chain));
      AllTrack(chain, p) && score <= p.score
        && (chain == [] || score == p.score || UpToDate(chain[0], p.score, p.settings[0]))
  {
  }

  /** No score is higher, and no earlier one is as high. */
  ghost predicate FirstHighest(scores: seq<real>, j: nat) {
    && j < |scores| && (forall i :: 0 <= i < |scores| ==> scores[i] <= scores[j])
    && forall i :: 0 <= i < j ==> scores[i] < scores[j]
  }

  /** Tuning ends after exactly one cycle, with the jointly best settings: those in force in the first round that
      reached the highest score, if that is above the initial score; otherwise with the settings given as best at the
      start. */
  lemma {:induction false} TuningEnds(chain: seq<Knob>, scores: seq<real>, proposals: seq<Setting>)
    requires AllPlaced(chain) && Count(chain) == 0 && |scores| == |proposals| == Cycle(chain)
    requires forall i :: 0 <= i < |chain| ==> chain[i].bestScore == 0.0
    ensures scores != [] && Finished(chain, scores, proposals)
    ensures forall n :: 0 < n < |scores| ==> !Finished(chain, scores[..n], proposals[..n])
    ensures
      var best := BestValues(RunChain(chain, scores, proposals));
      if exists j :: 0 <= j < |scores| && scores[j] > 0.0 then
        exists j: nat :: j < |scores| && FirstHighest(scores, j) && best == InForce(chain, scores, proposals, j)
      else best == BestValues(chain)
  {
    CountBelow(chain);
    RunCounts(chain, scores, proposals);
    forall n | 0 < n < |scores| ensures !Finished(chain, scores[..n], proposals[..n]) {
      RunCounts(chain, scores[..n], proposals[..n]);
    }
    RunTracks(chain, 0.0, scores, proposals);
    PeakMeans(chain, 0.0, scores, proposals);
    var p := PeakOf(chain, 0.0, scores, proposals);
    if p.score != 0.0 {
      var j :| FirstAt(chain, scores, proposals, p, j);
      assert FirstHighest(scores, j);
    }
    assert BestValues(RunChain(chain, scores, proposals)) == PeakOf(chain, 0.0, scores, proposals).settings;
  }

  // ---------------------------------------------------------------------
  // The joint parameter
  // ---------------------------------------------------------------------

  lemma {:induction false} NextPlace(j: nat, n: nat)
    requires n > 0
    ensures (j + 1) % n == if j % n + 1 >= n then 0 else j % n + 1
  {
    var q := j / n;
    assert j == n * q + j % n;
    if j % n + 1 >= n { DivMod(n, q + 1, 0); } else { DivMod(n, q, j % n + 1); }
  }

  /** The first wheel goes through the test points in their order, then takes proposals, each the one of the round
      before; when it comes round it starts with its initial setting. */
  lemma {:induction false} JointSettings(chain: seq<Knob>, scores: seq<real>, proposals: seq<Setting>, j: nat)
    requires |scores| == |proposals| && j <= |scores| && chain != []
    requires chain[0].tunable && chain[0].kind.Joint? && chain[0].index == 0
    ensures
      var points, place := chain[0].kind.testPoints, j % (chain[0].kind.maxSamples + 1);
      && InForce(chain, scores, proposals, j)[0]
        == (if j == 0 then chain[0].value else if place == 0 then chain[0].initial
            else if place < |points| then points[place] else proposals[j - 1])
      && (points != [] && chain[0].value == chain[0].initial == points[0] && place < |points| ==>
        InForce(chain, scores, proposals, j)[0] == points[place])
    ensures
      var k := RunChain(chain, scores[..j], proposals[..j])[0];
      && k.index == j % (chain[0].kind.maxSamples + 1) && k.tunable && k.kind == chain[0].kind
      && k.initial == chain[0].initial
  {
    if j > 0 {
      JointSettings(chain, scores, proposals, j - 1);
      NextPlace(j - 1, chain[0].kind.maxSamples + 1);
      var n := j - 1;
      assert scores[..j][..n] == scores[..n] && proposals[..j][..n] == proposals[..n];
      FirstTuned(RunChain(chain, scores[..n], proposals[..n]), scores[n], proposals[n]);
    }
  }

  lemma {:induction false} FirstTuned(chain: seq<Knob>, score: real, proposal: Setting)
    requires chain != []
    ensures TuneChain(chain, score, proposal).0[0] == TuneKnob(chain[0], score, proposal).0
  {
  }
}
