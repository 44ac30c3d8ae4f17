/** The stall inspector over successive cycles: who has not asked is reported in time. */
module StallRuns {
  import opened Negotiation
  import opened Invariants
  import opened StallInspectors
  import opened Controllers

  /** The coordinator's inspector before each cycle and after the last one; `times` are the cycles' times. */
  ghost predicate Course(ss: seq<Stalls>, times: seq<int>) {
    |ss| == |times| + 1 && forall k :: 0 <= k < |times| ==> Carried(ss[k], ss[k + 1], times[k])
  }

  /** Tensor n is waiting before each of the cycles from a to b. */
  ghost predicate Waiting(ss: seq<Stalls>, n: string, a: nat, b: nat) {
    b < |ss| && forall k :: a <= k <= b ==> n in ss[k].uncached
  }

  lemma {:induction false} SettingsKept(ss: seq<Stalls>, times: seq<int>, a: nat, b: nat)
    requires Course(ss, times) && a <= b < |ss|
    ensures ss[b].performs == ss[a].performs && ss[b].warning == ss[a].warning && ss[b].shutdown == ss[a].shutdown
  {
    if a < b {
      SettingsKept(ss, times, a, b - 1);
      assert Carried(ss[b - 1], ss[(b - 1) + 1], times[b - 1]);
    }
  }

  /** A tensor that is waiting keeps its time. */
  lemma {:induction false} StartKept(ss: seq<Stalls>, times: seq<int>, n: string, a: nat, b: nat)
    requires Course(ss, times) && a <= b < |ss| && Waiting(ss, n, a, b)
    ensures ss[b].uncached[n].start == ss[a].uncached[n].start
  {
    if a < b {
      StartKept(ss, times, n, a, b - 1);
      assert Carried(ss[b - 1], ss[(b - 1) + 1], times[b - 1]);
    }
  }

  /** The check time stays as long as no check is due. */
  lemma {:induction false} LastKept(ss: seq<Stalls>, times: seq<int>, a: nat, b: nat)
    requires Course(ss, times) && a <= b < |ss|
    requires forall k :: a <= k < b ==> times[k] - ss[a].last <= ss[a].warning
    ensures ss[b].last == ss[a].last
  {
    if a < b {
      LastKept(ss, times, a, b - 1);
      SettingsKept(ss, times, a, b - 1);
      assert Carried(ss[b - 1], ss[(b - 1) + 1], times[b - 1]);
    }
  }

  /** A rank that has not asked for a waiting tensor is reported in the first cycle that comes more than the warning
      time after both the last check and the tensor's start. */
  lemma {:induction false} FirstWarning(ss: seq<Stalls>, times: seq<int>, size: nat, n: string, r: nat, a: nat, b: nat)
    requires Course(ss, times) && a <= b < |times| && Waiting(ss, n, a, b) && ss[a].performs
    requires r < size && r !in ss[b].uncached[n].ranks
    requires forall k :: a <= k < b ==> times[k] - ss[a].last <= ss[a].warning
    requires times[b] - ss[a].last > ss[a].warning && times[b] - ss[a].uncached[n].start > ss[a].warning
    ensures Warns(ss[b], size, true, times[b], r, n)
  {
    LastKept(ss, times, a, b);
    SettingsKept(ss, times, a, b);
    StartKept(ss, times, n, a, b);
  }

  // ---------------------------------------------------------------------
  // In time
  // ---------------------------------------------------------------------

  /** In cycle c a check is due, more than `limit` after `start`. */
  ghost predicate CheckedLate(ss: seq<Stalls>, times: seq<int>, start: int, limit: int, c: nat) {
    c < |times| < |ss| && CheckDue(ss[c], times[c]) && times[c] - start > limit
  }

  /** Until there is a late check, the last one was not late. */
  lemma {:induction false} LastEarly(ss: seq<Stalls>, times: seq<int>, start: int, limit: int, a: nat, b: nat)
    requires Course(ss, times) && a <= b < |ss| && ss[a].last <= start && limit >= 0
    requires forall k :: a <= k < b ==> !CheckedLate(ss, times, start, limit, k)
    ensures ss[b].last <= start + limit
  {
    if a < b {
      LastEarly(ss, times, start, limit, a, b - 1);
      assert Carried(ss[b - 1], ss[(b - 1) + 1], times[b - 1]);
      assert !CheckedLate(ss, times, start, limit, b - 1);
    }
  }

  /** There is a late check, at the latest in a cycle that comes more than the limit and the warning time after the
      start. */
  lemma {:induction false} CheckedInTime(ss: seq<Stalls>, times: seq<int>, start: int, limit: int, a: nat, b: nat)
    returns (c: nat)
    requires Course(ss, times) && a <= b < |times| && ss[a].last <= start && limit >= 0
    requires ss[a].performs && times[b] - start > limit + ss[a].warning && ss[a].warning >= 0
    ensures a <= c <= b && CheckedLate(ss, times, start, limit, c)
  {
    if k :| a <= k < b && CheckedLate(ss, times, start, limit, k) {
      c := k;
    } else {
      c := b;
      LastEarly(ss, times, start, limit, a, b);
      SettingsKept(ss, times, a, b);
    }
  }

  /** Whoever does not ask for a tensor is reported, at the latest in the first cycle that comes more than twice the
      warning time after the first request for it. */
  lemma {:induction false} WarnedInTime(ss: seq<Stalls>, times: seq<int>, size: nat, n: string, r: nat, a: nat, b: nat)
    returns (c: nat)
    requires Course(ss, times) && a <= b < |times| && Waiting(ss, n, a, b) && ss[a].performs
    requires r < size && forall k :: a <= k <= b ==> r !in ss[k].uncached[n].ranks
    requires ss[a].last <= ss[a].uncached[n].start && ss[a].warning >= 0
    requires times[b] - ss[a].uncached[n].start > 2 * ss[a].warning
    ensures a <= c <= b && Warns(ss[c], size, true, times[c], r, n)
  {
    c := CheckedInTime(ss, times, ss[a].uncached[n].start, ss[a].warning, a, b);
    SettingsKept(ss, times, a, c);
    StartKept(ss, times, n, a, c);
  }

  /** With an admissible shutdown time the coordinator gives up on it, at the latest in the first cycle that comes more
      than the shutdown and the warning time after the first request for it. */
  lemma {:induction false} GivenUpInTime(ss: seq<Stalls>, times: seq<int>, size: nat, n: string, r: nat, a: nat, b: nat)
    returns (c: nat)
    requires Course(ss, times) && a <= b < |times| && Waiting(ss, n, a, b) && ss[a].performs
    requires r < size && forall k :: a <= k <= b ==> r !in ss[k].uncached[n].ranks
    requires ss[a].last <= ss[a].uncached[n].start && ss[a].warning >= 0
    requires ss[a].shutdown > 0 && ss[a].shutdown >= ss[a].warning
    requires times[b] - ss[a].uncached[n].start > ss[a].shutdown + ss[a].warning
    ensures a <= c <= b && CheckDue(ss[c], times[c])
    ensures GivesUp(ss[c].uncached, size, times[c], ss[c].warning, ss[c].shutdown)
  {
    c := CheckedInTime(ss, times, ss[a].uncached[n].start, ss[a].shutdown, a, b);
    SettingsKept(ss, times, a, c);
    StartKept(ss, times, n, a, c);
    assert Missing(ss[c].uncached, size, times[c], ss[c].shutdown, r, n);
    assert Late(ss[c].uncached, size, times[c], ss[c].shutdown, n);
  }

  // ---------------------------------------------------------------------
  // Cached tensors
  // ---------------------------------------------------------------------

  /** Cached tensor n is watched by a rank before each of the cycles from a to b, and its request in the queue stays as
      the tensor is cached.  `rs` are the rank's states before the cycles. */
  ghost predicate Watched(ss: seq<Stalls>, times: seq<int>, rs: seq<Rank>, n: string, a: nat, b: nat) {
    && |rs| == |times| < |ss| && b < |times|
    && forall k :: a <= k <= b ==>
      && n in ss[k].cached && DistinctNames(rs[k].queue)
      && (n in Names(rs[k].queue) ==> QueuedAsCached(rs[k].queue, rs[k].cache, n))
      && (k < b ==> TimesKept(ss[k].cached, ss[k + 1].cached, times[k]))
  }

  lemma {:induction false} PendingSince(ss: seq<Stalls>, times: seq<int>, rs: seq<Rank>, n: string, a: nat, b: nat,
      c: nat)
    requires Watched(ss, times, rs, n, a, b) && a <= c <= b
    ensures ss[c].cached[n] == ss[a].cached[n]
  {
    if a < c {
      PendingSince(ss, times, rs, n, a, b, c - 1);
      assert TimesKept(ss[c - 1].cached, ss[(c - 1) + 1].cached, times[c - 1]);
    }
  }

  /** A cached tensor that waits for other ranks is found overdue in a stall check, at the latest in the first cycle
      that comes more than twice the warning time after it was first seen. */
  lemma {:induction false} OverdueInTime(ss: seq<Stalls>, times: seq<int>, rs: seq<Rank>, n: string, size: nat,
      isCoordinator: bool, a: nat, b: nat) returns (c: nat)
    requires Course(ss, times) && a <= b && Watched(ss, times, rs, n, a, b)
    requires ss[a].performs && ss[a].last <= ss[a].cached[n] && ss[a].warning >= 0
    requires times[b] - ss[a].cached[n] > 2 * ss[a].warning
    ensures a <= c <= b
    ensures forall down ::
      var input := InputOf(ss[c], rs[c], down, size, isCoordinator, times[c]);
      input.checkDue && n in input.overdue
  {
    c := CheckedInTime(ss, times, ss[a].cached[n], ss[a].warning, a, b);
    SettingsKept(ss, times, a, c);
    PendingSince(ss, times, rs, n, a, b, c);
    TimesAre(ss[c].cached, rs[c].queue, rs[c].cache, times[c], n);
  }
}
