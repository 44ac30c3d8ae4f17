/** The results about whole runs, and the places where the code does less than one might expect. */
module Agreement {
  import opened Messages
  import opened Sequences
  import opened Validation
  import opened CacheModel
  import opened Fusion
  import opened Negotiation
  import opened Invariants
  import opened CycleProofs
  import opened RoundProofs
  import opened TallyProofs
  import opened SlowProofs
  import opened AnswerProofs
  import opened CycleTheorem
  import Callbacks
  import opened Operations
  import opened Runs
  import opened Watching

  // ---------------------------------------------------------------------
  // Lockstep and progress
  // ---------------------------------------------------------------------

  /** After any run that has not faulted, whatever the ranks have queued: the next cycle faults exactly if a rank looks
      up an absent name; otherwise all ranks return the same list and flag, the list answers exactly the tensors that
      all ranks have asked for, each once, and the caches agree again. */
  lemma {:induction false} NextCycle(size: nat, capacity: nat, events: seq<Event>, inputs: seq<Input>, cfg: Config)
    requires size > 0 && Run(Start(size, capacity), events, cfg.watching).Ok?
    ensures
      var w := Run(Start(size, capacity), events, cfg.watching).value;
      w.ranks != [] && (Held(w, inputs) ==>
        var o := Negotiate(w, inputs, cfg);
        && (o.Ok? <==> !AnyLookupFails(w, inputs, cfg))
        && (o.Ok? ==> Served(w, o.value, cfg) && Lockstep(o.value.world)))
  {
    RunExact(size, capacity, events, cfg.watching);
    var w := Run(Start(size, capacity), events, cfg.watching).value;
    if Held(w, inputs) { CycleServes(w, inputs, cfg); }
  }

  /** A run that does not turn the cache on while names are watched has not faulted, and its next cycle does not. */
  lemma {:induction false} NextCycleSafe(size: nat, capacity: nat, events: seq<Event>, inputs: seq<Input>, cfg: Config)
    requires size > 0 && AllAllowed(Start(size, capacity), events, cfg.watching)
    ensures
      var w := Run(Start(size, capacity), events, cfg.watching);
      w.Ok? && (|inputs| == |w.value.ranks| ==> !AnyLookupFails(w.value, inputs, cfg))
  {
    RunWatch(size, capacity, events, cfg.watching);
    var w := Run(Start(size, capacity), events, cfg.watching).value;
    if |inputs| == |w.ranks| { NothingAbsent(w, inputs, cfg); }
  }

  /** The submissions of a run follow the plan. */
  ghost predicate PlannedEvents(events: seq<Event>, f: Plan) {
    forall k :: 0 <= k < |events| && events[k].Enqueue? ==> events[k].m.op == f(events[k].m.name)
  }

  lemma {:induction false} SubmitSteady(w: World, m: Request, f: Plan)
    requires Steady(w, f) && m.rank < |w.ranks| && m.op == f(m.name)
    ensures Steady(World(w.ranks[m.rank := Submit(w.ranks[m.rank], m)], w.coord), f)
  {
    assert Planned(Submit(w.ranks[m.rank], m).queue, f);
  }

  lemma {:induction false} PerformSteady(w: World, i: nat, watching: bool, f: Plan)
    requires w.ranks != [] && Steady(w, f) && Apply(w, PerformAll(i), watching).Ok?
    ensures Steady(Apply(w, PerformAll(i), watching).value, f)
  {
  }

  lemma {:induction false} RetuneSteady(w: World, capacity: nat, watching: bool, f: Plan)
    requires w.ranks != [] && Steady(w, f)
    ensures Steady(Apply(w, Retune(capacity), watching).value, f)
  {
  }

  lemma {:induction false} StepSteady(w: World, e: Event, watching: bool, f: Plan)
    requires Inv(w) && Steady(w, f) && (e.Enqueue? ==> e.m.op == f(e.m.name)) && Apply(w, e, watching).Ok?
    ensures Steady(Apply(w, e, watching).value, f)
  {
    match e
    case Enqueue(m) => if m.rank < |w.ranks| { SubmitSteady(w, m, f); }
    case Cycle(inputs, limit) => if Held(w, inputs) { CycleAsPlanned(w, inputs, Config(limit, watching), f); }
    case PerformAll(i) => PerformSteady(w, i, watching, f);
    case Retune(capacity) => RetuneSteady(w, capacity, watching, f);
  }

  lemma {:induction false} RunSteady(size: nat, capacity: nat, events: seq<Event>, watching: bool, f: Plan)
    requires size > 0 && PlannedEvents(events, f) && Run(Start(size, capacity), events, watching).Ok?
    ensures Inv(Run(Start(size, capacity), events, watching).value)
    ensures Steady(Run(Start(size, capacity), events, watching).value, f)
  {
    var w := Start(size, capacity);
    RunExact(size, capacity, events, watching);
    if events != [] {
      var front := events[..|events| - 1];
      RunSteady(size, capacity, front, watching, f);
      StepSteady(Run(w, front, watching).value, events[|events| - 1], watching, f);
    }
  }

  /** If every tensor name keeps its operation, each response performs the operation asked for. */
  lemma {:induction false} NextCycleAsPlanned(size: nat, capacity: nat, events: seq<Event>, inputs: seq<Input>,
      cfg: Config, f: Plan)
    requires size > 0 && PlannedEvents(events, f) && Run(Start(size, capacity), events, cfg.watching).Ok?
    ensures
      var w := Run(Start(size, capacity), events, cfg.watching).value;
      w.ranks != [] && (Held(w, inputs) ==>
        var o := Negotiate(w, inputs, cfg);
        o.Ok? ==> forall l :: l in o.value.lists ==> AllPlanned(l.responses, f))
  {
    RunSteady(size, capacity, events, cfg.watching, f);
    var w := Run(Start(size, capacity), events, cfg.watching).value;
    if Held(w, inputs) { CycleAsPlanned(w, inputs, cfg, f); }
  }

  // ---------------------------------------------------------------------
  // Conservation of requests
  // ---------------------------------------------------------------------

  function CountFrom(ms: seq<Request>, rank: nat): nat {
    if ms == [] then 0 else CountFrom(ms[..|ms| - 1], rank) + (if ms[|ms| - 1].rank == rank then 1 else 0)
  }

  lemma {:induction false} CountDistinct(ms: seq<Request>, rank: nat)
    requires DistinctRanks(ms)
    ensures CountFrom(ms, rank) == if rank in RankSet(ms) then 1 else 0
  {
    if ms != [] {
      var front, m := ms[..|ms| - 1], ms[|ms| - 1];
      assert ms == front + [m];
      CountDistinct(front, rank);
      assert RankSet(ms) == RankSet(front) + {m.rank};
      assert m.rank !in RankSet(front);
    }
  }

  /** Requests of rank i for `n`, in its own queue or filed with the coordinator. */
  function Copies(w: World, i: nat, n: string): nat
    requires i < |w.ranks|
  {
    |For(w.ranks[i].queue, n)| + CountFrom(RequestsFor(w.coord, n), i)
  }

  lemma {:induction false} QueuedOnce(queue: seq<Request>, n: string)
    requires DistinctNames(queue)
    ensures |For(queue, n)| == if n in Names(queue) then 1 else 0
  {
    if n in Names(queue) {
      var m := NameOwner(queue, n);
      ForOne(queue, m);
    } else {
      ForNone(queue, n);
    }
  }

  lemma {:induction false} FiledOnce(w: World, i: nat, n: string)
    requires Inv(w)
    ensures CountFrom(RequestsFor(w.coord, n), i) == if i in Waiters(w.coord, n) then 1 else 0
  {
    if n in w.coord.messages { assert FiledInv(w, n); }
    CountDistinct(RequestsFor(w.coord, n), i);
  }

  /** A tensor in the table has exactly one request until it is agreed on, and none afterwards. */
  lemma {:induction false} EachRequestOnce(w: World, i: nat, n: string)
    requires Inv(w) && i < |w.ranks|
    ensures Copies(w, i, n) == if n in w.ranks[i].table && n !in AllNames(w.ranks[i].pending) then 1 else 0
  {
    assert RankInv(w.ranks[i], i, w.coord, |w.ranks|);
    QueuedOnce(w.ranks[i].queue, n);
    FiledOnce(w, i, n);
  }

  // ---------------------------------------------------------------------
  // Shutdown
  // ---------------------------------------------------------------------

  /** Every queued tensor is cached as it was, and no stalled one is evicted. */
  ghost predicate AllCached(w: World, inputs: seq<Input>, cfg: Config)
    requires |inputs| == |w.ranks|
  {
    forall i :: 0 <= i < |w.ranks| ==>
      w.ranks[i].cache.capacity > 0 && !AnyUncached(w.ranks[i].queue, w.ranks[i].cache)
        && Stalled(w.ranks[i], inputs[i], cfg) == {}
  }

  lemma {:induction false} ReportOf(w: World, inputs: seq<Input>, cfg: Config, prepared: seq<(Report, set<string>)>,
      i: nat)
    requires Inv(w) && |inputs| == |w.ranks| && AllOk(PrepareAll(w, inputs, cfg)) == Ok(prepared) && i < |w.ranks|
    ensures w.ranks[i].cache.capacity == w.ranks[0].cache.capacity
    ensures prepared[i].0.shutdown
      == (inputs[i].shutdown || (cfg.watching && inputs[i].checkDue && i == 0 && inputs[i].giveUp))
    ensures w.ranks[i].cache.capacity > 0 ==>
      prepared[i].0.uncached
        == (AnyUncached(w.ranks[i].queue, w.ranks[i].cache) || Stalled(w.ranks[i], inputs[i], cfg) != {})
  {
    hide Inv;
    SameBits(w, i);
    assert PrepareAll(w, inputs, cfg)[i].Ok?;
  }

  lemma {:induction false} CombinedFlags(reports: seq<Report>)
    requires reports != []
    ensures Combine(reports).uncached <==> exists i :: 0 <= i < |reports| && reports[i].uncached
    ensures Combine(reports).shutdown <==> exists i :: 0 <= i < |reports| && reports[i].shutdown
  {
  }

  lemma {:induction false} UncachedIff(w: World, inputs: seq<Input>, cfg: Config, reports: seq<Report>)
    requires |inputs| == |w.ranks| == |reports| && w.ranks != []
    requires forall i :: 0 <= i < |w.ranks| ==> w.ranks[i].cache.capacity == w.ranks[0].cache.capacity
    requires forall i :: 0 <= i < |w.ranks| && w.ranks[i].cache.capacity > 0 ==> (reports[i].uncached
      <==> AnyUncached(w.ranks[i].queue, w.ranks[i].cache) || Stalled(w.ranks[i], inputs[i], cfg) != {})
    ensures TakesFastPath(w.ranks[0], Combine(reports)) <==> AllCached(w, inputs, cfg)
  {
    CombinedFlags(reports);
    hide Combine, Stalled, AnyUncached;
  }

  lemma {:induction false} ShutdownIff(w: World, inputs: seq<Input>, cfg: Config, reports: seq<Report>)
    requires |inputs| == |w.ranks| == |reports| && w.ranks != []
    requires forall i :: 0 <= i < |w.ranks| ==> (reports[i].shutdown
      <==> inputs[i].shutdown || (cfg.watching && inputs[i].checkDue && i == 0 && inputs[i].giveUp))
    ensures Combine(reports).shutdown <==> ShutdownAsked(w, inputs, cfg)
  {
    CombinedFlags(reports);
    hide Combine;
  }

  lemma {:induction false} FastIff(w: World, inputs: seq<Input>, cfg: Config, prepared: seq<(Report, set<string>)>)
    requires Inv(w) && |inputs| == |w.ranks| && AllOk(PrepareAll(w, inputs, cfg)) == Ok(prepared)
    ensures w.ranks != []
    ensures TakesFastPath(w.ranks[0], Combine(Reports(prepared))) <==> AllCached(w, inputs, cfg)
    ensures Combine(Reports(prepared)).shutdown <==> ShutdownAsked(w, inputs, cfg)
  {
    assert w.ranks != [];
    var reports := Reports(prepared);
    assert |reports| == |w.ranks|;
    forall i | 0 <= i < |w.ranks|
      ensures w.ranks[i].cache.capacity == w.ranks[0].cache.capacity
      ensures reports[i].shutdown
        == (inputs[i].shutdown || (cfg.watching && inputs[i].checkDue && i == 0 && inputs[i].giveUp))
      ensures w.ranks[i].cache.capacity > 0 ==>
        reports[i].uncached
          == (AnyUncached(w.ranks[i].queue, w.ranks[i].cache) || Stalled(w.ranks[i], inputs[i], cfg) != {})
    {
      ReportOf(w, inputs, cfg, prepared, i);
      assert reports[i] == prepared[i].0;
    }
    hide *;
    UncachedIff(w, inputs, cfg, reports);
    ShutdownIff(w, inputs, cfg, reports);
  }

  /** All ranks see a shutdown request at once, except in a cycle answered from the cache: there it is
      reported only if there is nothing to answer. */
  lemma {:induction false} ShutdownReported(w: World, inputs: seq<Input>, cfg: Config)
    requires Inv(w) && AllIdle(w) && |inputs| == |w.ranks| && Negotiate(w, inputs, cfg).Ok?
    ensures
      var o := Negotiate(w, inputs, cfg).value;
      |o.lists| == |w.ranks| && forall i :: 0 <= i < |w.ranks| ==>
        (o.lists[i].shutdown <==>
          ShutdownAsked(w, inputs, cfg) && !(AllCached(w, inputs, cfg) && exists n :: Everywhere(w, n)))
  {
    CycleServes(w, inputs, cfg);
    var prepared, all, sorted := CycleStages(w, inputs, cfg);
    FastIff(w, inputs, cfg, prepared);
    if TakesFastPath(w.ranks[0], all) {
      FastCycle(w, cfg, Reports(prepared), all, sorted);
      if all.hits == {} {
        FastNothing(w, Reports(prepared), all, sorted);
      } else {
        var b :| b in all.hits;
        var n := HitNamed(w, Reports(prepared), all, sorted, b);
        FastNames(w, Reports(prepared), all, sorted, n);
        assert Everywhere(w, n);
      }
    } else {
      SlowCycle(w, cfg, Reports(prepared), all, sorted);
    }
  }

  // ---------------------------------------------------------------------
  // Shutdown and operations: concrete shortfalls
  // ---------------------------------------------------------------------

  const T := "t"
  const P := TensorParams(Float32, [4], CPU_DEVICE)
  const R := Response(Perform(Allreduce), [T], [CPU_DEVICE], [])

  const C := Cache(1, [T], map[T := Entry(R, P)], map[T := 0], [Some(T)], false)
  const NOTHING := Coordinator(map[], map[])

  function Asks(op: Operation): Request {
    Request(0, op, Float32, T, 0, CPU_DEVICE, [4])
  }

  /** One rank that has cached an allreduce of `t` and has just queued `op` for `t` again. */
  function Again(op: Operation): World {
    World([Rank(map[T := P], [Asks(op)], C, {}, [])], NOTHING)
  }

  // The state is reached: one cycle answers the first request and caches the response.

  const QUIET := Input(false, false, {}, false)
  const FIRST := Rank(map[T := P], [Asks(Allreduce)], Empty(1), {}, [])
  const MISSED := Report({}, {}, true, false)
  const SORTED := Sorted(Empty(1), [], [Asks(Allreduce)], {})
  const ANSWERED := Rank(map[T := P], [], C, {}, [R])

  lemma {:induction false} FirstPrepared(cfg: Config)
    ensures Prepare(FIRST, QUIET, cfg, true) == Ok((MISSED, {}))
  {
    var m, c := Asks(Allreduce), Empty(1);
    assert m in FIRST.queue && StateOf(m, c) == Miss;
    assert [m][..0] == [] && Watch({}, [], c) == {};
    assert Watch({}, [m], c) == {} - {T} == {};
    assert Stalled(FIRST, QUIET, cfg) == {};
    assert BitsIn([m], c, Hit) == {} && BitsIn([m], c, Invalid) == {};
    assert AnyUncached([m], c);
    var r := Prepare(FIRST, QUIET, cfg, true);
    assert r.Ok? && r.value.0.hits == {} && r.value.0.invalid == {} && r.value.1 == {};
  }

  lemma {:induction false} FirstSorted(cfg: Config)
    ensures SortOut(FIRST, {}, MISSED, cfg) == Ok(SORTED)
  {
    var m, c := Asks(Allreduce), Empty(1);
    assert Ascending({}, 0) == [];
    assert EraseAll(c, []) == Ok(c);
    assert StateOf(m, c) == Miss && [m][..0] == [];
    assert Kept([m], c, {}) == Kept([], c, {}) == [];
    assert Sent([m], c) == Sent([], c) + [m] == [m];
    assert Unwatch({}, [m], c, {}) == Unwatch({}, [], c, {}) - {T} == {};
  }

  lemma {:induction false} FirstConstructed()
    ensures Construct(T, [Asks(Allreduce)]) == R
  {
    assert FileDevices([], 1) == [0] && [Asks(Allreduce)][..0] == [];
  }

  /** The first request of a single rank makes its tensor ready, and the response clears the tables. */
  lemma {:induction false} AloneReady(m: Request)
    ensures
      var k := Record(NOTHING, m);
      && Tally(NOTHING, [m], 1) == (k, [m.name]) && RequestsFor(k, m.name) == [m] && Answer(k, m.name) == NOTHING
  {
    var k := Record(NOTHING, m);
    assert [m][..0] == [] && Tally(NOTHING, [], 1) == (NOTHING, []);
    assert RequestsFor(NOTHING, m.name) == [] && RequestsFor(k, m.name) == [m];
    assert [m][|[m]| - 1] == m && [] + [m.name] == [m.name];
    assert Tally(NOTHING, [m], 1) == (k, [m.name]);
    assert Answer(k, m.name) == NOTHING;
  }

  lemma {:induction false} RespondOne(k: Coordinator, n: string)
    requires RequestsFor(k, n) != []
    ensures Respond(k, [n]) == Ok((Answer(k, n), [Construct(n, RequestsFor(k, n))]))
  {
    hide Construct;
    var first := Construct(n, RequestsFor(k, n));
    assert [n][1..] == [] && Respond(Answer(k, n), []) == Ok((Answer(k, n), []));
    assert [first] + [] == [first];
  }

  lemma {:induction false} FirstTallied()
    ensures
      var tally := Tally(NOTHING, [Asks(Allreduce)], 1);
      tally.1 == [T] && Respond(tally.0, tally.1) == Ok((NOTHING, [R]))
  {
    AloneReady(Asks(Allreduce));
    FirstConstructed();
    hide Construct, Record, Answer, Tally, Respond, RequestsFor;
    RespondOne(Record(NOTHING, Asks(Allreduce)), T);
  }

  lemma {:induction false} FirstCoordinated(cfg: Config)
    ensures Coordinate(World([FIRST], NOTHING), [SORTED], MISSED, cfg) == Ok((NOTHING, [R]))
  {
    var sents := [FIRST.queue];
    assert sents[..0] == [] && Concat([]) == [];
    assert Concat(sents) == [Asks(Allreduce)];
    assert Ascending({}, 0) == [];
    FirstTallied();
    FuseSingle(R, FIRST.table, cfg.limit);
    assert [] + [R] == [R];
  }

  lemma {:induction false} FirstCached()
    ensures FinishSlow(FIRST, SORTED, [R], 1) == Ok(ANSWERED)
  {
    assert [R][..0] == [] && ToCache([], 1) == [] && Unfuse(R) == [R];
    assert ToCache([R], 1) == [R];
    var c := Insert(Empty(1), T, Entry(R, P), 0);
    assert Put(Empty(1), R, P) == Ok(c);
    assert PutAll(Empty(1), [], FIRST.table) == Ok(Empty(1));
    assert PutAll(Empty(1), [R], FIRST.table) == Ok(c);
    hide ToCache, PutAll, Put;
    assert [T][1..] == [] && Renumber([]) == map[];
    assert Renumber([T]) == map[T := 0];
    assert UpdateBits(c) == C;
  }

  lemma {:induction false} OneOk<A>(rs: seq<Result<A>>, value: A)
    requires |rs| == 1 && rs[0] == Ok(value)
    ensures AllOk(rs) == Ok([value])
  {
    assert AllOk(rs).value == [value];
  }

  /** A cycle of a single rank that goes to the coordinator. */
  lemma {:induction false} SingleCycle(r: Rank, k: Coordinator, input: Input, cfg: Config, report: Report,
      watched: set<string>, s: Sorted, l: Coordinator, list: seq<Response>, after: Rank)
    requires Prepare(r, input, cfg, true) == Ok((report, watched)) && report.hits == {} == report.invalid
    requires SortOut(r, watched, report, cfg) == Ok(s) && !TakesFastPath(r, report)
    requires Coordinate(World([r], k), [s], report, cfg) == Ok((l, list)) && FinishSlow(r, s, list, 1) == Ok(after)
    ensures Negotiate(World([r], k), [input], cfg)
      == Ok(Outcome(World([after], l), [ResponseList(list, report.shutdown)]))
  {
    var w := World([r], k);
    hide Prepare, SortOut, Coordinate, FinishSlow, AllOk;
    OneOk(PrepareAll(w, [input], cfg), (report, watched));
    assert Reports([(report, watched)]) == [report];
    assert Combine([report]) == report by { CombinedFlags([report]); }
    OneOk(SortAll(w, [(report, watched)], report, cfg), s);
    OneOk(SlowAll(w, [s], list), after);
    hide AllOk, PrepareAll, SortAll, SlowAll, Combine, Reports;
    assert SlowOutcome(w, [s], report, cfg).Ok?;
    assert SlowOutcome(w, [s], report, cfg).value.lists == [ResponseList(list, report.shutdown)];
    assert SlowOutcome(w, [s], report, cfg) == Ok(Outcome(World([after], l), [ResponseList(list, report.shutdown)]));
  }

  lemma {:induction false} FirstCycle(cfg: Config)
    ensures Negotiate(World([FIRST], NOTHING), [QUIET], cfg)
      == Ok(Outcome(World([ANSWERED], NOTHING), [ResponseList([R], false)]))
  {
    FirstPrepared(cfg);
    FirstSorted(cfg);
    FirstCoordinated(cfg);
    FirstCached();
    assert !TakesFastPath(FIRST, MISSED);
    hide Prepare, SortOut, Coordinate, FinishSlow, Negotiate;
    SingleCycle(FIRST, NOTHING, QUIET, cfg, MISSED, {}, SORTED, NOTHING, [R], ANSWERED);
  }

  /** A request, a cycle, the operation performed, and another request. */
  function Story(op: Operation, limit: int): seq<Event> {
    [Enqueue(Asks(Allreduce)), Cycle([QUIET], limit), PerformAll(0), Enqueue(Asks(op))]
  }

  lemma {:induction false} FourSteps(w: World, events: seq<Event>, watching: bool, a: World, b: World, c: World)
    requires |events| == 4 && w.ranks != [] && a.ranks != [] && b.ranks != [] && c.ranks != []
    requires Apply(w, events[0], watching) == Ok(a) && Apply(a, events[1], watching) == Ok(b)
    requires Apply(b, events[2], watching) == Ok(c)
    ensures Run(w, events, watching) == Apply(c, events[3], watching)
  {
    var e := events;
    hide Apply;
    assert e[..3][..2] == e[..2] && e[..2][..1] == e[..1] && e[..1][..0] == [];
    assert Run(w, [], watching) == Ok(w);
    assert Run(w, e[..1], watching) == Ok(a);
    assert Run(w, e[..2], watching) == Ok(b);
    assert Run(w, e[..3], watching) == Ok(c);
  }

  lemma {:induction false} FirstPerformed(watching: bool)
    ensures Apply(World([ANSWERED], NOTHING), PerformAll(0), watching)
      == Ok(World([Rank(map[], [], C, {}, [])], NOTHING))
  {
    assert AllNames([R]) == [T] by { assert [R][1..] == [] && AllNames([]) == []; }
    assert map[T := P] - {T} == map[];
    assert TakeAll(map[], []) == Ok(map[]) && [T][1..] == [];
    assert TakeAll(map[T := P], [T]) == Ok(map[]);
    hide TakeAll, AllNames;
    assert [ANSWERED][0 := Rank(map[], [], C, {}, [])] == [Rank(map[], [], C, {}, [])];
  }

  /** The state is reached from the start. */
  lemma {:induction false} AgainReached(op: Operation, limit: int, watching: bool)
    ensures Run(Start(1, 1), Story(op, limit), watching) == Ok(Again(op))
  {
    var e, a, b, c := Story(op, limit), World([FIRST], NOTHING), World([ANSWERED], NOTHING),
      World([Rank(map[], [], C, {}, [])], NOTHING);
    FirstCycle(Config(limit, watching));
    FirstPerformed(watching);
    hide Negotiate, TakeAll;
    assert Start(1, 1).ranks == [Rank(map[], [], Empty(1), {}, [])];
    assert Start(1, 1).ranks[0 := FIRST] == [FIRST] && c.ranks[0 := Again(op).ranks[0]] == Again(op).ranks;
    assert Submit(Start(1, 1).ranks[0], Asks(Allreduce)) == FIRST;
    assert Submit(c.ranks[0], Asks(op)) == Again(op).ranks[0];
    assert Apply(a, e[1], watching) == Ok(b);
    hide Apply, Run;
    FourSteps(Start(1, 1), e, watching, a, b, c);
  }

  lemma {:induction false} AgainInv(op: Operation)
    ensures Inv(Again(op)) && AllIdle(Again(op)) && Everywhere(Again(op), T)
  {
    var r := Again(op).ranks[0];
    assert r.queue[0] in r.queue;
    assert Names(r.queue) == {T};
    assert forall n :: RequestsFor(Again(op).coord, n) == [];
    assert AllNames([]) == [];
    assert Accounted(r, 0, Again(op).coord);
  }

  lemma {:induction false} AgainLooksUp(op: Operation, inputs: seq<Input>, cfg: Config)
    requires |inputs| == 1
    ensures !AnyLookupFails(Again(op), inputs, cfg)
  {
  }

  lemma {:induction false} AgainCached(op: Operation, inputs: seq<Input>, cfg: Config)
    requires |inputs| == 1 && !inputs[0].checkDue
    ensures AllCached(Again(op), inputs, cfg)
  {
  }

  /** A shutdown request is not reported by a cycle that is answered from the cache. */
  lemma {:induction false} ShutdownMissed(cfg: Config)
    ensures
      var inputs := [Input(true, false, {}, false)];
      && Inv(Again(Allreduce)) && AllIdle(Again(Allreduce)) && ShutdownAsked(Again(Allreduce), inputs, cfg)
      && Negotiate(Again(Allreduce), inputs, cfg).Ok? && |Negotiate(Again(Allreduce), inputs, cfg).value.lists| == 1
      && !Negotiate(Again(Allreduce), inputs, cfg).value.lists[0].shutdown
  {
    var w, inputs := Again(Allreduce), [Input(true, false, {}, false)];
    assert |w.ranks| == 1;
    assert ShutdownAsked(w, inputs, cfg) by { assert inputs[0].shutdown; }
    AgainInv(Allreduce);
    AgainCached(Allreduce, inputs, cfg);
    AgainLooksUp(Allreduce, inputs, cfg);
    hide Inv, AllIdle, Negotiate, AllCached, ShutdownAsked, AnyLookupFails, Again;
    CycleServes(w, inputs, cfg);
    ShutdownReported(w, inputs, cfg);
    assert Everywhere(w, T);
  }

  lemma {:induction false} FuseSingle(r: Response, t: Table, limit: int)
    requires NameOf(r) in t
    ensures Fuse([r], t, limit) == [r]
  {
    FuseStep([r], t, limit);
  }

  lemma {:induction false} AgainPeeked(all: Report)
    requires 0 in all.hits
    ensures
      var c := Again(Adasum).ranks[0].cache;
      PeekAll(c, HitList(all, c)) == Ok([R])
  {
    var c := Again(Adasum).ranks[0].cache;
    assert Ascending(all.hits, 1) == Ascending(all.hits, 0) + [0];
    assert HitList(all, c) == [0];
    assert Live(c, 0) && Peek(c, 0) == R;
    PeekAllEach(c, HitList(all, c));
    assert PeekAll(c, HitList(all, c)).value == [R];
  }

  lemma {:induction false} AgainFinish(s: Sorted, all: Report, cfg: Config)
    requires s.cache == Again(Adasum).ranks[0].cache && Valid(s.cache) && 0 in all.hits
    ensures FinishFast(Again(Adasum).ranks[0], s, all, cfg).Ok?
    ensures FinishFast(Again(Adasum).ranks[0], s, all, cfg).value.1.responses == [R]
  {
    AgainPeeked(all);
    GetAllPeeks(s.cache, HitList(all, s.cache));
    FuseSingle(R, Again(Adasum).ranks[0].table, cfg.limit);
    hide Valid, GetAll, PeekAll, HitList, Fuse;
    FastFinish(Again(Adasum).ranks[0], s, all, cfg, [R]);
  }

  lemma {:induction false} AgainFast(cfg: Config, reports: seq<Report>, all: Report, sorted: seq<Sorted>)
    requires Round(Again(Adasum), reports, all, sorted) && TakesFastPath(Again(Adasum).ranks[0], all)
    ensures FastOutcome(Again(Adasum), sorted, all, cfg).Ok?
    ensures FastOutcome(Again(Adasum), sorted, all, cfg).value.lists[0].responses == [R]
  {
    var w := Again(Adasum);
    AgainInv(Adasum);
    FastSorted(w, reports, all, sorted, 0);
    FastNames(w, reports, all, sorted, T);
    StoreSorted(w, reports, all, sorted, 0);
    assert |sorted| == 1;
    hide Round, Inv, AllIdle, Everywhere, FinishFast, Valid, StoreInv;
    AgainFinish(sorted[0], all, cfg);
    FastOutcomeDone(w, sorted, all, cfg);
  }

  /** An Adasum request is answered with the allreduce cached under its name. */
  lemma {:induction false} OperationReplaced(cfg: Config)
    ensures
      var w, inputs := Again(Adasum), [Input(false, false, {}, false)];
      && Inv(w) && AllIdle(w) && w.ranks[0].queue[0].op == Adasum
      && Negotiate(w, inputs, cfg).Ok? && |Negotiate(w, inputs, cfg).value.lists| == 1
      && Negotiate(w, inputs, cfg).value.lists[0].responses == [R]
  {
    var w, inputs := Again(Adasum), [Input(false, false, {}, false)];
    AgainInv(Adasum);
    AgainLooksUp(Adasum, inputs, cfg);
    AgainCached(Adasum, inputs, cfg);
    CycleServes(w, inputs, cfg);
    var prepared, all, sorted := CycleStages(w, inputs, cfg);
    FastIff(w, inputs, cfg, prepared);
    AgainFast(cfg, Reports(prepared), all, sorted);
  }

  // ---------------------------------------------------------------------
  // Performing what was agreed
  // ---------------------------------------------------------------------

  lemma {:induction false} NamesOfAll(list: seq<Response>, k: nat)
    requires k < |list|
    ensures AllNames(list) == AllNames(list[..k]) + list[k].names + AllNames(list[k + 1..])
  {
    assert list == list[..k] + list[k..] && list[k..] == [list[k]] + list[k + 1..];
    AllNamesAppend(list[..k], list[k..]);
    AllNamesAppend([list[k]], list[k + 1..]);
    assert AllNames([list[k]]) == list[k].names;
  }

  /** When its turn comes, every agreed response finds all its tensors in the table, each once, whatever has been
      submitted in the meantime. */
  lemma {:induction false} AgreedPerformable(w: World, i: nat, k: nat, d: Callbacks.Desk, outcome: Callbacks.Outcome)
    requires Inv(w) && i < |w.ranks| && k < |w.ranks[i].pending|
    requires d.table.Keys >= w.ranks[i].table.Keys - (set n | n in AllNames(w.ranks[i].pending[..k]))
    ensures Callbacks.Possible(d, Callbacks.Perform(w.ranks[i].pending[k].names, outcome))
  {
    PendingHeld(w, i);
    hide Inv, AllNames;
    PendingNames(w.ranks[i].table, w.ranks[i].pending, k, d.table.Keys);
  }

  lemma {:induction false} PendingHeld(w: World, i: nat)
    requires Inv(w) && i < |w.ranks|
    ensures Distinct(AllNames(w.ranks[i].pending)) && forall n :: n in AllNames(w.ranks[i].pending) ==>
      n in w.ranks[i].table
  {
    assert RankInv(w.ranks[i], i, w.coord, |w.ranks|);
  }

  lemma {:induction false} PendingNames(t: Table, list: seq<Response>, k: nat, keys: set<string>)
    requires k < |list| && Distinct(AllNames(list)) && forall n :: n in AllNames(list) ==> n in t
    requires keys >= t.Keys - (set n | n in AllNames(list[..k]))
    ensures Distinct(list[k].names) && forall n :: n in list[k].names ==> n in keys
  {
    NamesOfAll(list, k);
    MiddlePart(AllNames(list[..k]), list[k].names, AllNames(list[k + 1..]));
  }

  lemma {:induction false} MiddlePart(a: seq<string>, b: seq<string>, c: seq<string>)
    requires Distinct(a + b + c)
    ensures Distinct(b) && forall n :: n in b ==> n !in a && n in a + b + c
  {
    var s := a + b + c;
    forall i | 0 <= i < |b| ensures s[|a| + i] == b[i] {}
    forall i, j | 0 <= i < |b| && 0 <= j < |a| ensures b[i] != a[j] { assert s[j] == a[j] && s[|a| + i] == b[i]; }
  }
}
