/** One rank's part of a cycle: what it reports, keeps and sends. */
module CycleProofs {
  import opened Messages
  import opened Sequences
  import opened CacheModel
  import opened Negotiation
  import opened Invariants

  lemma {:induction false} NamesSplit(queue: seq<Request>)
    requires queue != []
    ensures Names(queue) == Names(queue[..|queue| - 1]) + {queue[|queue| - 1].name}
    ensures forall m :: m in queue <==> m in queue[..|queue| - 1] || m == queue[|queue| - 1]
  {
    assert queue == queue[..|queue| - 1] + [queue[|queue| - 1]];
  }

  lemma {:induction false} NameOwner(queue: seq<Request>, n: string) returns (m: Request)
    requires n in Names(queue)
    ensures m in queue && m.name == n
  {
    m :| m in queue && m.name == n;
  }

  /** Names without a request in the queue stay watched; of the others only the cached ones are watched. */
  lemma {:induction false} WatchedAfter(watched: set<string>, queue: seq<Request>, c: Cache)
    requires DistinctNames(queue)
    ensures forall n :: n in Watch(watched, queue, c) ==> n in watched || n in Names(queue)
    ensures forall n :: n in Watch(watched, queue, c) && n in Names(queue) ==> n in c.bits
    ensures forall n :: n in watched && n !in Names(queue) ==> n in Watch(watched, queue, c)
  {
    if queue != [] {
      var front, m := queue[..|queue| - 1], queue[|queue| - 1];
      NamesSplit(queue);
      WatchedAfter(watched, front, c);
      forall n | n in Watch(watched, queue, c) && n in Names(queue) ensures n in c.bits {
        if n == m.name { assert n in c.bits; } else { assert n in Watch(watched, front, c) && n in Names(front); }
      }
    }
  }

  /** An overdue name is watched although it is neither queued nor cached, so its bit cannot be looked up. */
  ghost predicate LooksUpAbsent(r: Rank, input: Input, cfg: Config) {
    && r.cache.capacity > 0 && cfg.watching && input.checkDue
    && exists n :: n in r.watched && n in input.overdue && n !in Names(r.queue) && n !in r.cache.bits
  }

  /** A rank gets as far as the collectives unless the stall inspector looks up an absent name. */
  lemma {:induction false} LookupFails(r: Rank, input: Input, cfg: Config, isCoordinator: bool)
    requires DistinctNames(r.queue)
    ensures Prepare(r, input, cfg, isCoordinator).Err? <==> LooksUpAbsent(r, input, cfg)
  {
    WatchedAfter(r.watched, r.queue, r.cache);
    var stalled := Stalled(r, input, cfg);
    if n :| n in stalled && n !in r.cache.bits {
      assert n in r.watched && n in input.overdue && n !in Names(r.queue);
    }
    if n :| n in r.watched && n in input.overdue && n !in Names(r.queue) && n !in r.cache.bits {
      assert n in Watch(r.watched, r.queue, r.cache);
    }
  }

  /** What a rank with a cache reports. */
  ghost predicate Reported(r: Rank, p: Report) {
    && (forall b :: b in p.hits <==>
      exists m :: m in r.queue && StateOf(m, r.cache) == Hit && r.cache.bits[m.name] == b)
    && (forall m :: m in r.queue && StateOf(m, r.cache) == Invalid ==> r.cache.bits[m.name] in p.invalid)
    && (forall b :: b in p.invalid ==> exists n :: n in r.cache.bits && r.cache.bits[n] == b)
    && (forall m :: m in r.queue && StateOf(m, r.cache) != Hit ==> p.uncached)
    && (p.invalid != {} ==> p.uncached)
  }

  lemma {:induction false} PrepareReports(r: Rank, input: Input, cfg: Config, isCoordinator: bool)
    requires Valid(r.cache) && r.cache.capacity > 0 && Prepare(r, input, cfg, isCoordinator).Ok?
    ensures Reported(r, Prepare(r, input, cfg, isCoordinator).value.0)
  {
    var p := Prepare(r, input, cfg, isCoordinator).value.0;
    forall b | b in p.invalid ensures (exists n :: n in r.cache.bits && r.cache.bits[n] == b) && p.uncached {
      if b in BitsIn(r.queue, r.cache, Invalid) {
        var m :| m in r.queue && m.name in r.cache.bits && StateOf(m, r.cache) == Invalid && r.cache.bits[m.name] == b;
      }
    }
  }

  // ---------------------------------------------------------------------
  // Splitting the queue
  // ---------------------------------------------------------------------

  lemma {:induction false} KeptMembers(queue: seq<Request>, c: Cache, hits: set<nat>)
    ensures forall m :: m in Kept(queue, c, hits) <==> m in queue && StateOf(m, c) == Hit && !Common(m, c, hits)
  {
    if queue != [] {
      NamesSplit(queue);
      KeptMembers(queue[..|queue| - 1], c, hits);
    }
  }

  lemma {:induction false} SentMembers(queue: seq<Request>, c: Cache)
    ensures forall m :: m in Sent(queue, c) <==> m in queue && StateOf(m, c) != Hit
  {
    if queue != [] {
      NamesSplit(queue);
      SentMembers(queue[..|queue| - 1], c);
    }
  }

  lemma {:induction false} FrontDistinct(queue: seq<Request>)
    requires queue != [] && DistinctNames(queue)
    ensures DistinctNames(queue[..|queue| - 1])
    ensures forall m :: m in queue[..|queue| - 1] ==> m.name != queue[|queue| - 1].name
  {
  }

  lemma {:induction false} AppendDistinct(queue: seq<Request>, m: Request)
    requires DistinctNames(queue) && forall x :: x in queue ==> x.name != m.name
    ensures DistinctNames(queue + [m])
  {
    forall i, j | 0 <= i < j < |queue + [m]| ensures (queue + [m])[i].name != (queue + [m])[j].name {
      if j == |queue| { assert queue[i] in queue; }
    }
  }

  lemma {:induction false} KeptDistinct(queue: seq<Request>, c: Cache, hits: set<nat>)
    requires DistinctNames(queue)
    ensures DistinctNames(Kept(queue, c, hits))
  {
    if queue != [] {
      FrontDistinct(queue);
      KeptDistinct(queue[..|queue| - 1], c, hits);
      KeptMembers(queue[..|queue| - 1], c, hits);
      if StateOf(queue[|queue| - 1], c) == Hit && !Common(queue[|queue| - 1], c, hits) {
        AppendDistinct(Kept(queue[..|queue| - 1], c, hits), queue[|queue| - 1]);
      }
    }
  }

  lemma {:induction false} SentDistinct(queue: seq<Request>, c: Cache)
    requires DistinctNames(queue)
    ensures DistinctNames(Sent(queue, c))
  {
    if queue != [] {
      FrontDistinct(queue);
      SentDistinct(queue[..|queue| - 1], c);
      SentMembers(queue[..|queue| - 1], c);
      if StateOf(queue[|queue| - 1], c) != Hit {
        AppendDistinct(Sent(queue[..|queue| - 1], c), queue[|queue| - 1]);
      }
    }
  }

  /** After invalid entries are gone, a message is kept when cached but not answered, and sent when not cached. */
  ghost predicate Split(r: Rank, all: Report, s: Sorted) {
    && Valid(s.cache)
    && Survives(r.cache, s.cache, Ascending(all.invalid, |r.cache.slots|))
    && (forall m :: m in s.kept <==> m in r.queue && m.name in s.cache.bits && s.cache.bits[m.name] !in all.hits)
    && (forall m :: m in s.sent <==> m in r.queue && m.name !in s.cache.bits)
    && DistinctNames(s.kept) && DistinctNames(s.sent)
    && (all.invalid == {} ==> s.cache == r.cache)
  }

  /** The combined report includes this rank's. */
  ghost predicate Includes(all: Report, p: Report) {
    && (forall b :: b in all.hits ==> b in p.hits && b !in p.invalid)
    && p.invalid <= all.invalid
    && (p.uncached ==> all.uncached)
  }

  lemma {:induction false} AllLive(c: Cache)
    requires Valid(c) && !c.outdated
    ensures forall b :: 0 <= b < |c.slots| ==> Live(c, b)
  {
  }

  /** A queued message whose name is still cached matches the cached entry. */
  lemma {:induction false} CachedMatches(r: Rank, p: Report, all: Report, c: Cache, m: Request)
    requires Valid(r.cache) && Reported(r, p) && Includes(all, p)
    requires Survives(r.cache, c, Ascending(all.invalid, |r.cache.slots|))
    requires m in r.queue && m.name in c.bits
    ensures StateOf(m, c) == Hit && StateOf(m, r.cache) == Hit
  {
    var gone := Ascending(all.invalid, |r.cache.slots|);
    assert r.cache.bits[m.name] !in gone;
    assert r.cache.bits[m.name] !in p.invalid;
  }

  lemma {:induction false} SortOutEmpty(r: Rank, watched: set<string>, all: Report, cfg: Config)
    requires DistinctNames(r.queue) && Valid(r.cache) && r.cache.capacity == 0
    ensures SortOut(r, watched, all, cfg).Ok? && Split(r, all, SortOut(r, watched, all, cfg).value)
  {
    assert r.cache.order == [];
    assert forall n :: n in r.cache.bits ==> n in r.cache.order;
  }

  lemma {:induction false} KeptAndSent(r: Rank, p: Report, all: Report, c: Cache)
    requires Valid(r.cache) && Reported(r, p) && Includes(all, p)
    requires Survives(r.cache, c, Ascending(all.invalid, |r.cache.slots|))
    ensures forall m :: m in Kept(r.queue, c, all.hits) <==>
      m in r.queue && m.name in c.bits && c.bits[m.name] !in all.hits
    ensures forall m :: m in Sent(r.queue, c) <==> m in r.queue && m.name !in c.bits
  {
    forall m | m in r.queue ensures StateOf(m, c) == Hit <==> m.name in c.bits {
      if m.name in c.bits { CachedMatches(r, p, all, c, m); }
    }
    KeptMembers(r.queue, c, all.hits);
    SentMembers(r.queue, c);
  }

  lemma {:induction false} SortOutIs(r: Rank, watched: set<string>, all: Report, cfg: Config, c: Cache)
    requires r.cache.capacity > 0 && EraseAll(r.cache, Ascending(all.invalid, |r.cache.slots|)) == Ok(c)
    ensures SortOut(r, watched, all, cfg)
      == Ok(Sorted(c, Kept(r.queue, c, all.hits), Sent(r.queue, c),
                   if cfg.watching then Unwatch(watched, r.queue, c, all.hits) else watched))
  {
  }

  lemma {:induction false} SortOutSplits(r: Rank, watched: set<string>, p: Report, all: Report, cfg: Config)
    requires DistinctNames(r.queue) && Valid(r.cache) && !r.cache.outdated && r.cache.capacity > 0
    requires Reported(r, p) && Includes(all, p)
    ensures SortOut(r, watched, all, cfg).Ok?
    ensures Split(r, all, SortOut(r, watched, all, cfg).value)
  {
    var gone := Ascending(all.invalid, |r.cache.slots|);
    AllLive(r.cache);
    EraseAllLive(r.cache, gone);
    var c := EraseAll(r.cache, gone).value;
    if all.invalid == {} {
      NoneAscending(|r.cache.slots|);
      assert c == r.cache;
    }
    SortOutIs(r, watched, all, cfg, c);
    SplitBy(r, p, all, c, SortOut(r, watched, all, cfg).value);
  }

  lemma {:induction false} SplitBy(r: Rank, p: Report, all: Report, c: Cache, s: Sorted)
    requires DistinctNames(r.queue) && Valid(r.cache) && Reported(r, p) && Includes(all, p)
    requires Valid(c) && Survives(r.cache, c, Ascending(all.invalid, |r.cache.slots|))
      && (all.invalid == {} ==> c == r.cache)
    requires s.cache == c && s.kept == Kept(r.queue, c, all.hits) && s.sent == Sent(r.queue, c)
    ensures Split(r, all, s)
  {
    KeptAndSent(r, p, all, c);
    KeptDistinct(r.queue, c, all.hits);
    SentDistinct(r.queue, c);
    hide Valid, Reported, Includes, Survives, DistinctNames, Split, Kept, Sent;
    SplitOf(r, all, s);
  }

  lemma {:induction false} SplitOf(r: Rank, all: Report, s: Sorted)
    requires Valid(s.cache) && Survives(r.cache, s.cache, Ascending(all.invalid, |r.cache.slots|))
    requires forall m :: m in s.kept <==> m in r.queue && m.name in s.cache.bits && s.cache.bits[m.name] !in all.hits
    requires forall m :: m in s.sent <==> m in r.queue && m.name !in s.cache.bits
    requires DistinctNames(s.kept) && DistinctNames(s.sent) && (all.invalid == {} ==> s.cache == r.cache)
    ensures Split(r, all, s)
  {
    hide Valid, Survives, DistinctNames;
  }

  lemma {:induction false} NoneAscending(n: nat)
    ensures Ascending({}, n) == []
  {
    if n > 0 { NoneAscending(n - 1); }
  }
}
