/** Training sequences without shared frames: windows picked greedily from the left. */
module Windows {

  /** Frames s .. s + nt - 1 exist, and the first and the last come from the same source. */
  predicate Window<T(==)>(sources: seq<T>, nt: nat, s: nat) {
    nt >= 1 && s + nt <= |sources| && sources[s] == sources[s + nt - 1]
  }

  /** Windows that start at least nt frames apart share no frame. */
  ghost predicate Disjoint<T(!new)>(sources: seq<T>, nt: nat, starts: set<nat>) {
    && (forall s :: s in starts ==> Window(sources, nt, s))
    && forall s, t :: s in starts && t in starts && s < t ==> s + nt <= t
  }

  /** The windows picked from `from` on. */
  function Greedy<T(==)>(sources: seq<T>, nt: nat, from: nat): seq<nat>
    requires nt >= 1
    decreases |sources| + nt - from
  {
    if from + nt > |sources| then []
    else if Window(sources, nt, from) then [from] + Greedy(sources, nt, from + nt)
    else Greedy(sources, nt, from + 1)
  }

  /** Goes through the frames, skipping to the end of each window it takes. */
  method PossibleStarts<T(==)>(sources: seq<T>, nt: nat) returns (starts: seq<nat>)
    requires nt >= 1
    ensures starts == Greedy(sources, nt, 0)
  {
    var current := 0;
    starts := [];
    while current < |sources| - nt + 1
      invariant starts + Greedy(sources, nt, current) == Greedy(sources, nt, 0)
      decreases |sources| - current
    {
      if sources[current] == sources[current + nt - 1] {
        assert starts + ([current] + Greedy(sources, nt, current + nt))
          == (starts + [current]) + Greedy(sources, nt, current + nt);
        starts := starts + [current];
        current := current + nt;
      } else {
        current := current + 1;
      }
    }
  }

  /** What is picked are windows, in increasing order and nt or more frames apart. */
  lemma {:induction false} GreedyDisjoint<T(!new)>(sources: seq<T>, nt: nat, from: nat)
    requires nt >= 1
    ensures
      var g := Greedy(sources, nt, from);
      && (forall i :: 0 <= i < |g| ==> from <= g[i] && Window(sources, nt, g[i]))
      && (forall i, j :: 0 <= i < j < |g| ==> g[i] + nt <= g[j])
      && Disjoint(sources, nt, set s | s in g)
    decreases |sources| + nt - from
  {
    if from + nt <= |sources| {
      if Window(sources, nt, from) {
        GreedyDisjoint(sources, nt, from + nt);
      } else {
        GreedyDisjoint(sources, nt, from + 1);
      }
    }
  }

  /** Two windows that start within nt frames of each other share frames. */
  lemma {:induction false} AtMostOne<T(!new)>(sources: seq<T>, nt: nat, from: nat, starts: set<nat>)
    requires Disjoint(sources, nt, starts) && forall s :: s in starts ==> from <= s
    ensures |set s | s in starts && s < from + nt| <= 1
  {
    var near := set s | s in starts && s < from + nt;
    if near != {} {
      var a :| a in near;
      forall b | b in near ensures b == a { }
      assert near == {a};
    }
  }

  lemma {:induction false} Part<T(!new)>(sources: seq<T>, nt: nat, starts: set<nat>, part: set<nat>)
    requires Disjoint(sources, nt, starts) && part <= starts
    ensures Disjoint(sources, nt, part)
  {
  }

  /** A window at `from` costs at most one of the others. */
  lemma {:induction false} SplitAt<T(!new)>(sources: seq<T>, nt: nat, from: nat, starts: set<nat>)
    returns (far: set<nat>)
    requires nt >= 1 && Disjoint(sources, nt, starts) && forall s :: s in starts ==> from <= s
    ensures Disjoint(sources, nt, far) && (forall s :: s in far ==> from + nt <= s)
    ensures |starts| <= 1 + |far|
  {
    var near := set s | s in starts && s < from + nt;
    far := set s | s in starts && s >= from + nt;
    AtMostOne(sources, nt, from, starts);
    Part(sources, nt, starts, far);
    assert starts == near + far && near !! far;
  }

  lemma {:induction false} NoneLeft<T(!new)>(sources: seq<T>, nt: nat, from: nat, starts: set<nat>)
    requires Disjoint(sources, nt, starts) && (forall s :: s in starts ==> from <= s) && from + nt > |sources|
    ensures starts == {}
  {
    assert forall s :: s in starts ==> Window(sources, nt, s);
  }

  /** No set of windows without shared frames is larger than the greedy one. */
  lemma {:induction false} GreedyOptimal<T(!new)>(sources: seq<T>, nt: nat, from: nat, starts: set<nat>)
    requires nt >= 1 && Disjoint(sources, nt, starts) && forall s :: s in starts ==> from <= s
    ensures |starts| <= |Greedy(sources, nt, from)|
    decreases |sources| + nt - from
  {
    if from + nt > |sources| {
      NoneLeft(sources, nt, from, starts);
    } else if Window(sources, nt, from) {
      var far := SplitAt(sources, nt, from, starts);
      GreedyOptimal(sources, nt, from + nt, far);
    } else {
      assert forall s :: s in starts ==> Window(sources, nt, s) && s != from;
      GreedyOptimal(sources, nt, from + 1, starts);
    }
  }
}
