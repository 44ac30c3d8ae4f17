/** The buffers that fused tensors are copied into, and their size. */
module FusionBuffers {
  import opened Messages
  import opened Arithmetic
  import opened Fusion
  import opened Negotiation
  import opened ServedProofs
  import opened CycleTheorem
  import opened Runs
  import opened Agreement

  const ATOMIC_UNIT := 64
  const DOUBLE_SIZE := 8

  /** The unit to which the threshold is rounded up if all nodes run the same number of ranks. */
  function Unit(localSize: nat): nat {
    localSize * DOUBLE_SIZE * ATOMIC_UNIT
  }

  /** C++ division: toward zero. */
  function Quotient(a: int, b: int): int
    requires b > 0
  {
    if a >= 0 then a / b else -(-a / b)
  }

  function ThresholdBytes(proposed: int, homogeneous: bool, localSize: nat): int
    requires localSize >= 1
  {
    if homogeneous then Quotient(proposed + Unit(localSize) - 1, Unit(localSize)) * Unit(localSize) else proposed
  }

  /** The quotient is the number, less its remainder, or towards zero. */
  lemma {:induction false} QuotientIs(a: int, b: int)
    requires b > 0
    ensures Quotient(a, b) * b == if a >= 0 then a - a % b else a + -a % b
  {
  }

  lemma {:induction false} LeastMultiple(unit: nat, proposed: int, q: int, k: int)
    requires unit > 0 && q * unit < proposed + unit && proposed <= k * unit
    ensures q * unit <= k * unit
  {
    if k < q { ProductLess(unit, k, q); }
  }

  /** Not one less: q is the least if and only if the next lower multiple is too low. */
  lemma {:induction false} LeastIff(unit: nat, proposed: int, q: int)
    requires unit > 0
    ensures (forall k :: proposed <= k * unit ==> q * unit <= k * unit) <==> q * unit < proposed + unit
  {
    if q * unit < proposed + unit {
      forall k | proposed <= k * unit ensures q * unit <= k * unit { LeastMultiple(unit, proposed, q, k); }
    } else {
      assert (q - 1) * unit == q * unit - unit;
    }
  }

  /** The proposed threshold is rounded up to a multiple of the unit.  It is the least one above, except for most
      thresholds below the negative unit, where the division rounds up a second time. */
  lemma {:induction false} ThresholdLeast(proposed: int, localSize: nat)
    requires localSize >= 1
    ensures
      var t, unit := ThresholdBytes(proposed, true, localSize), Unit(localSize);
      && unit > 0 && t % unit == 0 && proposed <= t < proposed + 2 * unit
      && ((forall k :: proposed <= k * unit ==> t <= k * unit) <==> proposed + unit > 0 || (1 - proposed) % unit == 0)
  {
    var unit := Unit(localSize);
    assert unit > 0;
    var q := Quotient(proposed + unit - 1, unit);
    QuotientIs(proposed + unit - 1, unit);
    hide Unit, Quotient;
    DivMod(unit, q, 0);
    LeastIff(unit, proposed, q);
    if proposed + unit <= 0 { OneLess(unit, 1 - proposed); }
  }

  datatype Key = Key(device: int, framework: nat, stream: nat)

  datatype Slot = Slot(filled: bool, size: int)

  /** What asking for the buffer of a key comes to; `granted` is whether memory can be had if some is needed. */
  ghost predicate Initialized(before: map<Key, Slot>, after: map<Key, Slot>, threshold: int, key: Key, granted: bool,
      ok: bool)
  {
    && after.Keys == before.Keys + {key} && (forall k :: k in before && k != key ==> after[k] == before[k])
    && (ok <==> granted || (key in before && before[key] == Slot(true, threshold)))
    && after[key] == Slot(ok, threshold)
  }

  class FusionBufferManager {
    var buffers: map<Key, Slot>

    constructor ()
      ensures buffers == map[]
    {
      buffers := map[];
    }

    /** Provides a buffer of the given size. */
    method InitializeBuffer(threshold: int, key: Key, granted: bool) returns (ok: bool)
      modifies this
      ensures Initialized(old(buffers), buffers, threshold, key, granted, ok)
    {
      var slot := if key in buffers then buffers[key] else Slot(false, 0);
      if slot.size != threshold { slot := Slot(false, 0); }
      ok := true;
      if !slot.filled {
        slot := Slot(granted, threshold);
        ok := granted;
      }
      buffers := buffers[key := slot];
    }
  }

  /** If a response of rank i has several tensors, they are in its table and fit the buffer. */
  ghost predicate Fits(w: World, o: Outcome, i: nat, g: Response, buffers: map<Key, Slot>, key: Key) {
    && i < |w.ranks| && i < |o.lists|
    && (g in o.lists[i].responses && |g.names| > 1 ==>
          && (forall n :: n in g.names ==> n in w.ranks[i].table)
          && key in buffers && buffers[key].filled
          && BufferBytes(g.kind, g.names, ChunksOf(g, |w.ranks|), w.ranks[i].table) <= buffers[key].size)
  }

  lemma {:induction false} ServedFits(w: World, o: Outcome, cfg: Config, i: nat, g: Response,
      before: map<Key, Slot>, after: map<Key, Slot>, key: Key, granted: bool)
    requires w.ranks != [] && Served(w, o, cfg) && i < |w.ranks|
    requires Initialized(before, after, cfg.limit, key, granted, true)
    ensures Fits(w, o, i, g, after, key)
  {
    hide Right;
    if g in o.lists[i].responses && |g.names| > 1 {
      assert RightFor(w, o.lists[0].responses, cfg, i);
      RightFits(g, w.ranks[i].table, i, |w.ranks|, cfg.limit);
    }
  }

  /** Whatever happened before, and whatever thresholds were in force, the tensors of a fused response fit the buffer
      that every rank initialises for them with the threshold of the cycle. */
  lemma {:induction false} FusedDataFits(size: nat, capacity: nat, events: seq<Event>, inputs: seq<Input>, cfg: Config,
      proposed: int, homogeneous: bool, localSize: nat, i: nat, g: Response,
      before: map<Key, Slot>, after: map<Key, Slot>, key: Key, granted: bool)
    requires size > 0 && localSize >= 1 && cfg.limit == ThresholdBytes(proposed, homogeneous, localSize)
    requires Run(Start(size, capacity), events, cfg.watching).Ok?
    requires
      var w := Run(Start(size, capacity), events, cfg.watching).value;
      Held(w, inputs) && w.ranks != [] && i < |w.ranks| && Negotiate(w, inputs, cfg).Ok?
    requires Initialized(before, after, ThresholdBytes(proposed, homogeneous, localSize), key, granted, true)
    ensures
      var w := Run(Start(size, capacity), events, cfg.watching).value;
      Fits(w, Negotiate(w, inputs, cfg).value, i, g, after, key)
  {
    NextCycle(size, capacity, events, inputs, cfg);
    var w := Run(Start(size, capacity), events, cfg.watching).value;
    hide Run, Negotiate, Served, Initialized, Fits;
    ServedFits(w, Negotiate(w, inputs, cfg).value, cfg, i, g, before, after, key, granted);
  }

  lemma {:induction false} RightFits(g: Response, t: Table, i: nat, size: nat, limit: int)
    requires Right(g, t, i, size, limit) && |g.names| > 1
    ensures (forall n :: n in g.names ==> n in t) && BufferBytes(g.kind, g.names, ChunksOf(g, size), t) <= limit
  {
  }
}
