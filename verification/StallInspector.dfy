/** Watching for tensors that only some ranks have asked for, in place.  Times are in seconds. */
module StallInspectors {
  import opened CacheModel
  import opened Negotiation
  import opened Invariants
  import opened CacheCoordinators

  datatype Stall = Stall(ranks: seq<nat>, start: int)

  /** Rank r has not asked for n although others did more than `warning` seconds ago. */
  predicate Missing(table: map<string, Stall>, size: nat, now: int, warning: int, r: nat, n: string) {
    r < size && n in table && now - table[n].start > warning && r !in table[n].ranks
  }

  /** Some rank is late by more than `time` for n. */
  ghost predicate Late(table: map<string, Stall>, size: nat, now: int, time: int, n: string) {
    exists r: nat :: Missing(table, size, now, time, r, n)
  }

  /** What an inspector remembers: who has asked for which tensor and since when, since when cached tensors are pending,
      whether and after what times it warns and gives up, and its last check. */
  datatype Stalls = Stalls(uncached: map<string, Stall>, cached: map<string, int>, performs: bool, warning: int,
    shutdown: int, last: int)

  predicate CheckDue(s: Stalls, now: int) {
    s.performs && now - s.last > s.warning
  }

  /** The report of a cycle: on the coordinator, if a check is due, the missing ranks of overdue tensors. */
  ghost predicate Warns(s: Stalls, size: nat, isCoordinator: bool, now: int, r: nat, n: string) {
    CheckDue(s, now) && isCoordinator && Missing(s.uncached, size, now, s.warning, r, n)
  }

  /** The names that have been pending for longer than `warning`. */
  function Exceeding(times: map<string, int>, warning: int, now: int): set<string> {
    set n | n in times && now - times[n] > warning
  }

  /** Some tensor is later than an admissible shutdown time. */
  ghost predicate GivesUp(table: map<string, Stall>, size: nat, now: int, warning: int, shutdown: int) {
    shutdown > 0 && shutdown >= warning && exists n :: Late(table, size, now, shutdown, n)
  }

  /** A name's time is that of the cycle in which it came into the table. */
  ghost predicate StartsKept(before: map<string, Stall>, after: map<string, Stall>, now: int) {
    forall n :: n in after ==> after[n].start == if n in before then before[n].start else now
  }

  /** Names have come, but none has gone. */
  ghost predicate TableGrown(before: map<string, Stall>, after: map<string, Stall>, now: int) {
    before.Keys <= after.Keys && StartsKept(before, after, now)
  }

  /** Names have gone, but nothing else has changed. */
  ghost predicate TableShrunk(before: map<string, Stall>, after: map<string, Stall>) {
    forall n :: n in after ==> n in before && after[n] == before[n]
  }

  /** The same for cached tensors: a time is that of the cycle in which the name came into the table. */
  ghost predicate TimesKept(before: map<string, int>, after: map<string, int>, now: int) {
    forall n :: n in after ==> after[n] == if n in before then before[n] else now
  }

  ghost predicate TimesShrunk(before: map<string, int>, after: map<string, int>) {
    forall n :: n in after ==> n in before && after[n] == before[n]
  }

  /** What a cycle at this time leaves of an inspector: the check time moves on if a check was due, names that stay keep
      their time. */
  ghost predicate Carried(s: Stalls, t: Stalls, now: int) {
    && t.performs == s.performs && t.warning == s.warning && t.shutdown == s.shutdown
    && t.last == (if CheckDue(s, now) then now else s.last)
    && StartsKept(s.uncached, t.uncached, now)
  }

  predicate Listed(missing: map<nat, set<string>>, r: nat, n: string) {
    r in missing && n in missing[r]
  }

  /** The report once the cache entries of `names` have been marked invalid. */
  function Marked(r: Report, names: set<string>, nameToBit: map<string, nat>): Report {
    r.(invalid := r.invalid + (set n | n in names && n in nameToBit :: nameToBit[n]), uncached := r.uncached
      || names != {})
  }

  lemma {:induction false} MarkNone(r: Report, nameToBit: map<string, nat>)
    ensures Marked(r, {}, nameToBit) == r
  {
  }

  lemma {:induction false} MarkNext(r: Report, names: set<string>, nameToBit: map<string, nat>, n: string)
    requires n in nameToBit
    ensures Marked(r, names + {n}, nameToBit)
            == Marked(r, names, nameToBit).(invalid := Marked(r, names, nameToBit).invalid + {nameToBit[n]},
              uncached := true)
  {
    assert n in names + {n};
  }

  class StallInspector {
    var uncachedTensorTable: map<string, Stall>
    var cachedTensorTable: map<string, int>
    var performStallCheck: bool
    var stallWarningTime: int
    var stallShutdownTime: int
    var lastStallCheck: int

    constructor (now: int)
      ensures uncachedTensorTable == map[] && cachedTensorTable == map[] && performStallCheck
      ensures stallWarningTime == 60 && stallShutdownTime == 0 && lastStallCheck == now
    {
      uncachedTensorTable, cachedTensorTable := map[], map[];
      performStallCheck, stallWarningTime, stallShutdownTime, lastStallCheck := true, 60, 0, now;
    }

    /** The coordinator's table, as negotiation sees it. */
    ghost function Waiting(): map<string, seq<nat>>
      reads this
    {
      map n | n in uncachedTensorTable :: uncachedTensorTable[n].ranks
    }

    ghost function View(): Stalls
      reads this
    {
      Stalls(uncachedTensorTable, cachedTensorTable, performStallCheck, stallWarningTime, stallShutdownTime,
             lastStallCheck)
    }

    /** Finds the missing ranks of every tensor that is overdue, and whether to give up. */
    method CheckForStalledTensors(size: nat, now: int) returns (missing: map<nat, set<string>>, shouldShutDown: bool)
      ensures forall r: nat, n :: Listed(missing, r, n) <==>
        Missing(uncachedTensorTable, size, now, stallWarningTime, r, n)
      ensures forall r: nat :: r in missing ==> missing[r] != {}
      ensures shouldShutDown <==> GivesUp(uncachedTensorTable, size, now, stallWarningTime, stallShutdownTime)
    {
      missing, shouldShutDown := map[], false;
      var shutdownTime := stallShutdownTime;
      if shutdownTime > 0 && shutdownTime < stallWarningTime { shutdownTime := 0; }
      var rest := uncachedTensorTable.Keys;
      while rest != {}
        invariant rest <= uncachedTensorTable.Keys
        invariant forall r: nat, n ::
          Listed(missing, r, n) <==> n !in rest && Missing(uncachedTensorTable, size, now, stallWarningTime, r, n)
        invariant forall r: nat :: r in missing ==> missing[r] != {}
        invariant shouldShutDown <==>
          shutdownTime > 0
          && exists n :: n in uncachedTensorTable && n !in rest && Late(uncachedTensorTable, size, now, shutdownTime, n)
        decreases rest
      {
        var name :| name in rest;
        rest := rest - {name};
        var stall := uncachedTensorTable[name];
        var lag := now - stall.start;
        assert Late(uncachedTensorTable, size, now, shutdownTime, name) <==>
          lag > shutdownTime && exists r: nat :: r < size && r !in stall.ranks by {
          if r: nat :| r < size && r !in stall.ranks && lag > shutdownTime {
            assert Missing(uncachedTensorTable, size, now, shutdownTime, r, name);
          }
        }
        if lag > stallWarningTime {
          missing, shouldShutDown := CollectMissing(name, stall.ranks, size, missing, shouldShutDown, shutdownTime > 0
            && lag > shutdownTime);
        }
      }
    }

    method UpdateCheckTime(now: int)
      modifies this`lastStallCheck
      ensures lastStallCheck == now
    {
      lastStallCheck := now;
    }

    predicate ShouldPerformCheck(now: int)
      reads this
    {
      performStallCheck && now - lastStallCheck > stallWarningTime
    }

    method RecordUncachedTensorStart(name: string, rank: nat, now: int)
      modifies this`uncachedTensorTable
      ensures Waiting()
        == old(Waiting())[name := (if name in old(Waiting()) then old(Waiting())[name] else []) + [rank]]
      ensures uncachedTensorTable == old(uncachedTensorTable)[name := (
        if name in old(uncachedTensorTable) then
          Stall(old(uncachedTensorTable)[name].ranks + [rank], old(uncachedTensorTable)[name].start)
        else Stall([rank], now))]
    {
      if name !in uncachedTensorTable {
        uncachedTensorTable := uncachedTensorTable[name := Stall([rank], now)];
        assert [] + [rank] == [rank];
      } else {
        var s := uncachedTensorTable[name];
        uncachedTensorTable := uncachedTensorTable[name := s.(ranks := s.ranks + [rank])];
      }
    }

    method RemoveUncachedTensor(name: string)
      modifies this`uncachedTensorTable
      ensures Waiting() == old(Waiting()) - {name} && uncachedTensorTable == old(uncachedTensorTable) - {name}
    {
      uncachedTensorTable := uncachedTensorTable - {name};
    }

    method RecordCachedTensorStart(name: string, now: int)
      modifies this`cachedTensorTable
      ensures cachedTensorTable == if performStallCheck && name !in old(cachedTensorTable)
        then old(cachedTensorTable)[name := now] else old(cachedTensorTable)
      ensures cachedTensorTable.Keys == old(cachedTensorTable).Keys + (if performStallCheck then {name} else {})
    {
      if performStallCheck && name !in cachedTensorTable { cachedTensorTable := cachedTensorTable[name := now]; }
    }

    method RemoveCachedTensor(name: string)
      modifies this`cachedTensorTable
      ensures cachedTensorTable == if performStallCheck then old(cachedTensorTable) - {name} else old(cachedTensorTable)
      ensures cachedTensorTable.Keys == old(cachedTensorTable).Keys - (if performStallCheck then {name} else {})
    {
      if performStallCheck { cachedTensorTable := cachedTensorTable - {name}; }
    }

    /** Names in the cached table that are overdue. */
    ghost function Overdue(now: int): set<string>
      reads this
    {
      Exceeding(cachedTensorTable, stallWarningTime, now)
    }

    /** Marks the cache entries of overdue tensors as invalid; fails if one of them is not in the cache. */
    method InvalidateStalledCachedTensors(cc: CacheCoordinator, nameToBit: map<string, nat>, now: int)
      returns (ok: bool)
      requires cc.Valid() && forall n :: n in nameToBit ==> nameToBit[n] < cc.numActiveBits
      modifies cc
      ensures cc.Valid()
      ensures ok <==> forall n :: n in Overdue(now) ==> n in nameToBit
      ensures ok ==> cc.View() == Marked(old(cc.View()), Overdue(now), nameToBit)
    {
      hide Marked;
      ghost var first, late := cc.View(), Overdue(now);
      MarkNone(first, nameToBit);
      assert late - cachedTensorTable.Keys == {};
      var rest := cachedTensorTable.Keys;
      while rest != {}
        modifies cc
        invariant rest <= cachedTensorTable.Keys && cc.Valid()
        invariant forall n :: n in late - rest ==> n in nameToBit
        invariant cc.View() == Marked(first, late - rest, nameToBit)
        decreases rest
      {
        var n :| n in rest;
        if now - cachedTensorTable[n] > stallWarningTime {
          assert n in late;
          if n !in nameToBit { return false; }
          MarkNext(first, late - rest, nameToBit, n);
          assert late - (rest - {n}) == (late - rest) + {n};
          cc.RecordInvalidBit(nameToBit[n]);
          cc.SetUncachedInQueue(true);
        } else {
          assert late - (rest - {n}) == late - rest;
        }
        rest := rest - {n};
      }
      assert late - rest == late;
      ok := true;
    }
  }

  /** Adds the ranks that are missing for one tensor. */
  method CollectMissing(name: string, ranks: seq<nat>, size: nat, missing: map<nat, set<string>>, down: bool,
      overdue: bool)
    returns (more: map<nat, set<string>>, shouldShutDown: bool)
    ensures forall r: nat, n :: Listed(more, r, n) <==> Listed(missing, r, n) || (n == name && r < size && r !in ranks)
    ensures (forall r: nat :: r in missing ==> missing[r] != {}) ==> forall r: nat :: r in more ==> more[r] != {}
    ensures shouldShutDown <==> down || (overdue && exists r: nat :: r < size && r !in ranks)
  {
    more, shouldShutDown := missing, down;
    var rank := 0;
    while rank < size
      invariant rank <= size
      invariant forall r: nat, n :: Listed(more, r, n) <==>
        Listed(missing, r, n) || (n == name && r < rank && r !in ranks)
      invariant (forall r: nat :: r in missing ==> missing[r] != {}) ==> forall r: nat :: r in more ==> more[r] != {}
      invariant shouldShutDown <==> down || (overdue && exists r: nat :: r < rank && r !in ranks)
    {
      if rank !in ranks {
        ghost var before := more;
        more := more[rank := (if rank in more then more[rank] else {}) + {name}];
        assert name in more[rank];
        forall r: nat, n ensures Listed(more, r, n) <==> Listed(before, r, n) || (n == name && r == rank) { }
        if overdue { shouldShutDown := true; }
      }
      rank := rank + 1;
    }
  }

  /** Between any two steps of a run the coordinator's table lists exactly the ranks whose requests it holds, so the
      ranks reported as missing are those that have not asked. */
  lemma {:induction false} MissingHaveNotAsked(w: World, table: map<string, Stall>, now: int, warning: int, r: nat,
      n: string)
    requires Inv(w)
    requires table.Keys == w.coord.waiting.Keys && forall m :: m in table ==> table[m].ranks == w.coord.waiting[m]
    ensures Missing(table, |w.ranks|, now, warning, r, n) <==>
      n in w.coord.messages && now - table[n].start > warning && r < |w.ranks| && r !in Waiters(w.coord, n)
    ensures Missing(table, |w.ranks|, now, warning, r, n) ==>
      (n in w.ranks[r].table ==> n in Names(w.ranks[r].queue) || n in Fusion.AllNames(w.ranks[r].pending))
  {
    assert TablesMatch(w.coord);
    if r < |w.ranks| {
      assert Accounted(w.ranks[r], r, w.coord) by { assert RankInv(w.ranks[r], r, w.coord, |w.ranks|); }
    }
    hide Inv, RankInv;
    if n in w.coord.messages { ListedWaiters(w.coord, n, r); }
  }

  lemma {:induction false} ListedWaiters(k: Coordinator, n: string, r: nat)
    requires TablesMatch(k) && n in k.messages
    ensures n in k.waiting && (r in k.waiting[n] <==> r in Waiters(k, n))
  {
    var ms := k.messages[n];
    assert k.waiting[n] == RanksOf(ms);
    if r in RanksOf(ms) {
      var i :| 0 <= i < |ms| && RanksOf(ms)[i] == r;
      assert ms[i] in ms;
    }
    if r in Waiters(k, n) {
      var m :| m in ms && m.rank == r;
      var i :| 0 <= i < |ms| && ms[i] == m;
      assert RanksOf(ms)[i] == r;
    }
  }
}
