/**
  The conversation between the staging master and its workers, in any interleaving.  Messages wait
  until they are received; a job itself is an opaque action.
 */
module StagerProtocol {
  import opened Stager

  /** A worker waits for its load, has messages left to send, or is done (none left). */
  datatype WorkerState = Waiting | Sending(left: nat)

  /** Workers and loads are numbered from 0 here: entry i is worker i + 1.  `sent` loads are on their way,
      `mail` messages wait for the master, `received` have arrived. */
  datatype State = State(sent: nat, workers: seq<WorkerState>, mail: nat, received: nat)

  datatype Step = SendLoad | ReceiveLoad(worker: nat) | Report(worker: nat) | ReceiveReport

  /** Messages a worker sends on a load: one per job, or one to say that it is idle. */
  function Messages(load: Load): nat {
    if load == Idle then 1 else |Jobs(load)|
  }

  function Maximum(a: int, b: int): int { if a > b then a else b }

  /** Messages the master waits for: one per idle worker, by its own count, and one per item. */
  function Expected(p: nat, items: seq<string>): nat {
    Maximum(p - |items| - 1, 0) + |items|
  }

  function Start(loads: seq<Load>): State {
    State(0, seq(|loads|, i => Waiting), 0, 0)
  }

  predicate Enabled(s: State, loads: seq<Load>, expected: nat, step: Step)
    requires |s.workers| == |loads|
  {
    match step
    case SendLoad => s.sent < |loads|
    case ReceiveLoad(w) => w < |loads| && w < s.sent && s.workers[w] == Waiting
    case Report(w) => w < |loads| && s.workers[w].Sending? && s.workers[w].left > 0
    case ReceiveReport => s.sent == |loads| && s.received < expected && s.mail > 0
  }

  function Take(s: State, loads: seq<Load>, expected: nat, step: Step): (t: State)
    requires |s.workers| == |loads| && Enabled(s, loads, expected, step)
    ensures |t.workers| == |loads|
  {
    match step
    case SendLoad => s.(sent := s.sent + 1)
    case ReceiveLoad(w) => s.(workers := s.workers[w := Sending(Messages(loads[w]))])
    case Report(w) => s.(workers := s.workers[w := Sending(s.workers[w].left - 1)], mail := s.mail + 1)
    case ReceiveReport => s.(mail := s.mail - 1, received := s.received + 1)
  }

  /** The steps of a run can be taken one after the other. */
  ghost predicate Runs(loads: seq<Load>, expected: nat, steps: seq<Step>)
    decreases |steps|, 0
  {
    steps == [] ||
    (Runs(loads, expected, steps[..|steps| - 1])
     && Enabled(After(loads, expected, steps[..|steps| - 1]), loads, expected, steps[|steps| - 1]))
  }

  ghost function After(loads: seq<Load>, expected: nat, steps: seq<Step>): (s: State)
    requires Runs(loads, expected, steps)
    ensures |s.workers| == |loads|
    decreases |steps|, 1
  {
    if steps == [] then Start(loads)
    else Take(After(loads, expected, steps[..|steps| - 1]), loads, expected, steps[|steps| - 1])
  }

  // ---------------------------------------------------------------------
  // Messages are conserved
  // ---------------------------------------------------------------------

  /** Messages that the first k workers have yet to send. */
  function Outstanding(s: State, loads: seq<Load>, k: nat): nat
    requires k <= |s.workers| == |loads|
  {
    if k == 0 then 0
    else
      Outstanding(s, loads, k - 1)
      + (if s.workers[k - 1] == Waiting then Messages(loads[k - 1]) else s.workers[k - 1].left)
  }

  function Total(loads: seq<Load>): nat {
    if loads == [] then 0 else Total(loads[..|loads| - 1]) + Messages(loads[|loads| - 1])
  }

  lemma {:induction false} OutstandingChange(s: State, t: State, loads: seq<Load>, k: nat, w: nat)
    requires |s.workers| == |t.workers| == |loads| && k <= |loads| && w < |loads|
    requires forall i :: 0 <= i < |loads| && i != w ==> s.workers[i] == t.workers[i]
    ensures
      var before := if s.workers[w] == Waiting then Messages(loads[w]) else s.workers[w].left;
      var after := if t.workers[w] == Waiting then Messages(loads[w]) else t.workers[w].left;
      Outstanding(t, loads, k) == Outstanding(s, loads, k) + (if w < k then after - before else 0)
  {
    if k > 0 { OutstandingChange(s, t, loads, k - 1, w); }
  }

  lemma {:induction false} OutstandingStart(loads: seq<Load>, k: nat)
    requires k <= |loads|
    ensures Outstanding(Start(loads), loads, k) == Total(loads[..k])
  {
    if k > 0 {
      OutstandingStart(loads, k - 1);
      assert loads[..k][..k - 1] == loads[..k - 1];
    }
  }

  /** Every message is yet to be sent, waiting, or received; nobody works without a load. */
  ghost predicate Balanced(s: State, loads: seq<Load>, expected: nat)
    requires |s.workers| == |loads|
  {
    && s.sent <= |loads| && s.received <= expected
    && Outstanding(s, loads, |loads|) + s.mail + s.received == Total(loads)
    && forall w :: s.sent <= w < |loads| ==> s.workers[w] == Waiting
  }

  lemma {:induction false} StepBalanced(s: State, loads: seq<Load>, expected: nat, step: Step)
    requires |s.workers| == |loads| && Balanced(s, loads, expected) && Enabled(s, loads, expected, step)
    ensures Balanced(Take(s, loads, expected, step), loads, expected)
  {
    var t := Take(s, loads, expected, step);
    match step
    case SendLoad => SameOutstanding(s, t, loads, |loads|);
    case ReceiveLoad(w) => OutstandingChange(s, t, loads, |loads|, w);
    case Report(w) => OutstandingChange(s, t, loads, |loads|, w);
    case ReceiveReport => SameOutstanding(s, t, loads, |loads|);
  }

  lemma {:induction false} SameOutstanding(s: State, t: State, loads: seq<Load>, k: nat)
    requires |s.workers| == |loads| && s.workers == t.workers && k <= |loads|
    ensures Outstanding(s, loads, k) == Outstanding(t, loads, k)
  {
    if k > 0 { SameOutstanding(s, t, loads, k - 1); }
  }

  lemma {:induction false} RunBalanced(loads: seq<Load>, expected: nat, steps: seq<Step>)
    requires Runs(loads, expected, steps)
    ensures Balanced(After(loads, expected, steps), loads, expected)
  {
    if steps == [] {
      OutstandingStart(loads, |loads|);
      assert loads[..|loads|] == loads;
    } else {
      RunBalanced(loads, expected, steps[..|steps| - 1]);
      StepBalanced(After(loads, expected, steps[..|steps| - 1]), loads, expected, steps[|steps| - 1]);
    }
  }

  // ---------------------------------------------------------------------
  // Every run ends, and how
  // ---------------------------------------------------------------------

  /** Workers among the first k that still wait for their load. */
  function WaitingCount(s: State, k: nat): nat
    requires k <= |s.workers|
  {
    if k == 0 then 0 else WaitingCount(s, k - 1) + (if s.workers[k - 1] == Waiting then 1 else 0)
  }

  lemma {:induction false} WaitingChange(s: State, t: State, k: nat, w: nat)
    requires |s.workers| == |t.workers| && k <= |s.workers| && w < |s.workers|
    requires forall i :: 0 <= i < |s.workers| && i != w ==> s.workers[i] == t.workers[i]
    ensures WaitingCount(t, k) == WaitingCount(s, k)
      + (if w < k then (if t.workers[w] == Waiting then 1 else 0) - (if s.workers[w] == Waiting then 1 else 0) else 0)
  {
    if k > 0 { WaitingChange(s, t, k - 1, w); }
  }

  lemma {:induction false} WaitingSame(s: State, t: State, k: nat)
    requires s.workers == t.workers && k <= |s.workers|
    ensures WaitingCount(t, k) == WaitingCount(s, k)
  {
    if k > 0 { WaitingSame(s, t, k - 1); }
  }

  /** Steps still possible at most. */
  function Measure(s: State, loads: seq<Load>, expected: nat): int
    requires |s.workers| == |loads|
  {
    |loads| - s.sent + WaitingCount(s, |loads|) + Outstanding(s, loads, |loads|) + expected - s.received
  }

  lemma {:induction false} StepShrinks(s: State, loads: seq<Load>, expected: nat, step: Step)
    requires |s.workers| == |loads| && Balanced(s, loads, expected) && Enabled(s, loads, expected, step)
    ensures 0 <= Measure(Take(s, loads, expected, step), loads, expected) < Measure(s, loads, expected)
  {
    var t := Take(s, loads, expected, step);
    StepBalanced(s, loads, expected, step);
    match step
    case SendLoad =>
      SameOutstanding(s, t, loads, |loads|);
      WaitingSame(s, t, |loads|);
    case ReceiveLoad(w) =>
      OutstandingChange(s, t, loads, |loads|, w);
      WaitingChange(s, t, |loads|, w);
    case Report(w) =>
      OutstandingChange(s, t, loads, |loads|, w);
      WaitingChange(s, t, |loads|, w);
    case ReceiveReport =>
      SameOutstanding(s, t, loads, |loads|);
      WaitingSame(s, t, |loads|);
  }

  /** No run is longer than this. */
  lemma {:induction false} RunBounded(loads: seq<Load>, expected: nat, steps: seq<Step>)
    requires Runs(loads, expected, steps)
    ensures |steps| + Measure(After(loads, expected, steps), loads, expected) <= Measure(Start(loads), loads, expected)
    ensures 0 <= Measure(After(loads, expected, steps), loads, expected)
  {
    RunBalanced(loads, expected, steps);
    if steps != [] {
      var front := steps[..|steps| - 1];
      RunBounded(loads, expected, front);
      RunBalanced(loads, expected, front);
      StepShrinks(After(loads, expected, front), loads, expected, steps[|steps| - 1]);
    }
  }

  ghost predicate Stuck(s: State, loads: seq<Load>, expected: nat)
    requires |s.workers| == |loads|
  {
    forall step :: !Enabled(s, loads, expected, step)
  }

  /** The master and all workers have come to their ends. */
  ghost predicate AllDone(s: State, loads: seq<Load>, expected: nat) {
    s.sent == |loads| && s.received == expected && forall w :: 0 <= w < |s.workers| ==> s.workers[w] == Sending(0)
  }

  lemma {:induction false} NothingOutstanding(s: State, loads: seq<Load>, k: nat)
    requires k <= |s.workers| == |loads| && forall w :: 0 <= w < |loads| ==> s.workers[w] == Sending(0)
    ensures Outstanding(s, loads, k) == 0
  {
    if k > 0 { NothingOutstanding(s, loads, k - 1); }
  }

  /** Where no step is possible, all loads have been worked off. */
  lemma {:induction false} StuckWorkers(s: State, loads: seq<Load>, expected: nat)
    requires |s.workers| == |loads| && Balanced(s, loads, expected) && Stuck(s, loads, expected)
    ensures s.sent == |loads| && (forall w :: 0 <= w < |loads| ==> s.workers[w] == Sending(0))
    ensures s.mail + s.received == Total(loads) && (s.received == expected || s.mail == 0)
  {
    assert !Enabled(s, loads, expected, SendLoad);
    forall w | 0 <= w < |loads| ensures s.workers[w] == Sending(0) {
      assert !Enabled(s, loads, expected, ReceiveLoad(w));
      assert !Enabled(s, loads, expected, Report(w));
    }
    NothingOutstanding(s, loads, |loads|);
    assert !Enabled(s, loads, expected, ReceiveReport);
  }

  // ---------------------------------------------------------------------
  // With the loads of the distributor
  // ---------------------------------------------------------------------

  /** The loads of workers 1 to k. */
  function Loads(items: seq<string>, p: nat, k: nat): (loads: seq<Load>)
    requires p >= 2
    ensures |loads| == k
  {
    if k == 0 then [] else Loads(items, p, k - 1) + [Join(Share(items, p, k))]
  }

  function ItemsUpTo(items: seq<string>, p: nat, k: nat): nat
    requires p >= 2
  {
    if k == 0 then 0 else ItemsUpTo(items, p, k - 1) + |Share(items, p, k)|
  }

  function SeparatorsUpTo(items: seq<string>, p: nat, k: nat): nat
    requires p >= 2
  {
    if k == 0 then 0 else SeparatorsUpTo(items, p, k - 1) + SeparatorsIn(Share(items, p, k))
  }

  function IdleUpTo(items: seq<string>, p: nat, k: nat): nat
    requires p >= 2
  {
    if k == 0 then 0 else IdleUpTo(items, p, k - 1) + (if Share(items, p, k) == [] then 1 else 0)
  }

  lemma {:induction false} TotalUpTo(items: seq<string>, p: nat, k: nat)
    requires p >= 2
    ensures Total(Loads(items, p, k)) == ItemsUpTo(items, p, k) + SeparatorsUpTo(items, p, k) + IdleUpTo(items, p, k)
  {
    if k > 0 {
      TotalUpTo(items, p, k - 1);
      JobsOfShare(Share(items, p, k));
      var loads := Loads(items, p, k);
      assert loads[..|loads| - 1] == Loads(items, p, k - 1);
    }
  }

  lemma {:induction false} CountsNext(items: seq<string>, p: nat, k: nat)
    requires p >= 2 && items != []
    ensures
      var n := |items| - 1;
      var mine := if Worker(n, p) <= k then 1 else 0;
      && ItemsUpTo(items, p, k) == ItemsUpTo(items[..n], p, k) + mine
      && SeparatorsUpTo(items, p, k) == SeparatorsUpTo(items[..n], p, k) + mine * Separators(items[n])
  {
    hide Share;
    if k > 0 {
      var n := |items| - 1;
      CountsNext(items, p, k - 1);
      ShareNext(items, p, k, n);
      assert items[..n + 1] == items;
      SeparatorsNext(Share(items[..n], p, k), items[n]);
      assert Share(items[..n], p, k) + [] == Share(items[..n], p, k);
    }
  }

  lemma {:induction false} CountsEmpty(p: nat, k: nat)
    requires p >= 2
    ensures ItemsUpTo([], p, k) == 0 && SeparatorsUpTo([], p, k) == 0
  {
    if k > 0 { CountsEmpty(p, k - 1); }
  }

  lemma {:induction false} CountsAll(items: seq<string>, p: nat)
    requires p >= 2
    ensures ItemsUpTo(items, p, p - 1) == |items| && SeparatorsUpTo(items, p, p - 1) == SeparatorsIn(items)
  {
    if items == [] {
      CountsEmpty(p, p - 1);
    } else {
      CountsAll(items[..|items| - 1], p);
      CountsNext(items, p, p - 1);
    }
  }

  /** Workers without items are the last ones. */
  lemma {:induction false} IdleCount(items: seq<string>, p: nat, k: nat)
    requires p >= 2 && k < p
    ensures IdleUpTo(items, p, k) == Maximum(k - |items|, 0)
  {
    if k > 0 {
      IdleCount(items, p, k - 1);
      ShareSize(items, p, k);
      FirstRound(|items|, p - 1, k);
    }
  }

  lemma {:induction false} FirstRound(m: nat, n: nat, k: nat)
    requires 1 <= k <= n
    ensures Quota(m, n, k) == 0 <==> m < k
  {
    if m < n {
      Arithmetic.DivMod(n, 0, m);
    } else {
      assert m / n >= 1 by { Arithmetic.Spread(n, m / n, 1); assert m == n * (m / n) + m % n; }
    }
  }

  /** The workers send as many messages as the master waits for, and one more for each separator in a name. */
  lemma {:induction false} MessagesMatch(items: seq<string>, p: nat)
    requires p >= 2
    ensures Total(Loads(items, p, p - 1)) == Expected(p, items) + SeparatorsIn(items)
  {
    hide Total, Loads, Share, SeparatorsIn, ItemsUpTo, SeparatorsUpTo, IdleUpTo;
    TotalUpTo(items, p, p - 1);
    CountsAll(items, p);
    IdleCount(items, p, p - 1);
  }

  /** No interleaving gets stuck before everyone is done.  Then the master has received all it waits for, and the
      messages left over are as many as there are separators in the names: none exactly if no name contains one. */
  lemma {:induction false} NoHang(items: seq<string>, p: nat, steps: seq<Step>)
    requires p >= 2 && Runs(Loads(items, p, p - 1), Expected(p, items), steps)
    ensures
      var loads, expected := Loads(items, p, p - 1), Expected(p, items);
      var s := After(loads, expected, steps);
      && |steps| <= Measure(Start(loads), loads, expected)
      && (Stuck(s, loads, expected) <==> AllDone(s, loads, expected))
      && (Stuck(s, loads, expected) ==> s.mail == SeparatorsIn(items))
  {
    var loads, expected := Loads(items, p, p - 1), Expected(p, items);
    var s := After(loads, expected, steps);
    RunBalanced(loads, expected, steps);
    RunBounded(loads, expected, steps);
    MessagesMatch(items, p);
    if Stuck(s, loads, expected) { StuckWorkers(s, loads, expected); }
  }
}
