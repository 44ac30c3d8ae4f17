/** One cycle on all ranks' controllers in place: the steps of each rank, and the collectives between them. */
module ControllerCycles {
  import opened Messages
  import opened CacheModel
  import opened Negotiation
  import opened Invariants
  import opened RoundProofs
  import opened SlowProofs
  import opened CycleTheorem
  import opened CacheCoordinators
  import opened Controllers
  import opened StallInspectors

  /** The controller is sound and in this state. */
  ghost predicate At(c: Controller, r: Rank)
    reads c, c.tensorQueue, c.responseCache, c.stallInspector
  {
    c.responseCache.Valid() && c.View() == r
  }

  /** No two ranks share anything. */
  ghost predicate Apart(cs: seq<Controller>) {
    && cs != []
    && forall i, j :: 0 <= i < j < |cs| ==>
      && cs[i] != cs[j] && cs[i].tensorQueue != cs[j].tensorQueue
      && cs[i].responseCache != cs[j].responseCache && cs[i].stallInspector != cs[j].stallInspector
  }

  /** What an inspector remembers besides the cached tensors. */
  ghost function Stamp(s: StallInspector): Stalls
    reads s
  {
    s.View().(cached := map[])
  }

  /** Whether stalls are checked for, what the ranks' inspectors remember, since when cached tensors were pending when
      the cycle began, and its time. */
  datatype Setup = Setup(watching: bool, stamps: seq<Stalls>, started: seq<map<string, int>>, now: int)

  ghost predicate Configured(c: Controller, i: nat, size: nat, setup: Setup)
    reads c.stallInspector
  {
    && c.size == size && c.isCoordinator == (i == 0) && c.stallInspector.performStallCheck == setup.watching
    && i < |setup.stamps| && Stamp(c.stallInspector) == setup.stamps[i]
    && i < |setup.started| && TimesKept(setup.started[i], c.stallInspector.cachedTensorTable, setup.now)
  }

  /** The inspector after its turn in the cycle. */
  function Checked(s: Stalls, now: int): Stalls {
    s.(last := if CheckDue(s, now) then now else s.last)
  }

  function Advance(setup: Setup, i: nat, now: int): Setup
    requires i < |setup.stamps|
  {
    setup.(stamps := setup.stamps[i := Checked(setup.stamps[i], now)])
  }

  /** The first i ranks have had their turn. */
  ghost predicate Advanced(before: Setup, after: Setup, i: nat, now: int) {
    && after.watching == before.watching && after.started == before.started && after.now == before.now
    && |after.stamps| == |before.stamps|
    && forall j :: 0 <= j < |before.stamps| ==>
      after.stamps[j] == if j < i then Checked(before.stamps[j], now) else before.stamps[j]
  }

  function AllChecked(setup: Setup, now: int): (s: Setup)
    ensures s.watching == setup.watching && s.started == setup.started && s.now == setup.now
    ensures |s.stamps| == |setup.stamps|
    ensures forall j :: 0 <= j < |s.stamps| ==> s.stamps[j] == Checked(setup.stamps[j], now)
  {
    Setup(setup.watching, seq(|setup.stamps|, j requires 0 <= j < |setup.stamps| => Checked(setup.stamps[j], now)),
          setup.started, setup.now)
  }

  lemma {:induction false} AdvancedNone(setup: Setup, now: int)
    ensures Advanced(setup, setup, 0, now)
  {
  }

  lemma {:induction false} AdvancedNext(before: Setup, after: Setup, i: nat, now: int)
    requires Advanced(before, after, i, now) && i < |before.stamps|
    ensures i < |after.stamps| && Advanced(before, Advance(after, i, now), i + 1, now)
  {
  }

  lemma {:induction false} AdvancedAll(before: Setup, after: Setup, now: int)
    requires Advanced(before, after, |before.stamps|, now)
    ensures after == AllChecked(before, now)
  {
    assert after.stamps == AllChecked(before, now).stamps;
  }

  /** The coordinator's inspector has taken in and given out requests. */
  ghost predicate Filed(before: Setup, after: Setup, now: int) {
    && after.watching == before.watching && after.started == before.started && after.now == before.now
    && |after.stamps| == |before.stamps| > 0
    && after.stamps[0] == before.stamps[0].(uncached := after.stamps[0].uncached)
    && StartsKept(before.stamps[0].uncached, after.stamps[0].uncached, now)
    && forall j :: 0 < j < |before.stamps| ==> after.stamps[j] == before.stamps[j]
  }

  // ---------------------------------------------------------------------
  // One rank
  // ---------------------------------------------------------------------

  /** The rank's part of the agreement on bits starts with this report. */
  ghost predicate Publishes(cc: CacheCoordinator, report: Report, n: nat)
    reads cc
  {
    cc.Valid() && cc.View() == report && cc.numActiveBits == n
  }

  lemma {:induction false} ViewFits(c: Controller, r: Rank)
    requires At(c, r)
    ensures |c.responseCache.iters| == |r.cache.slots| && r.cache == c.responseCache.model
      && r.queue == c.tensorQueue.queue
    ensures r.pending == [] && (c.responseCache.capacity > 0 <==> r.cache.capacity > 0) && r.table == c.Params()
  {
    LiveIff(c.responseCache.model, c.responseCache.list, c.responseCache.iters, 0);
  }

  method Publish(c: Controller, cc: CacheCoordinator, down: bool, now: int, limit: int, ghost r: Rank)
    returns (messages: seq<Request>, ok: bool, ghost input: Input, ghost watched: set<string>)
    requires At(c, r) && Publishes(cc, Report({}, {}, false, false), |r.cache.slots|)
    modifies c.tensorQueue`queue, c.stallInspector`cachedTensorTable, c.stallInspector`lastStallCheck, cc
    ensures messages == r.queue && c.Tables() == old(c.Tables())
    ensures input == InputOf(old(c.stallInspector.View()), r, down, c.size, c.isCoordinator, now)
    ensures DistinctNames(r.queue) ==>
      TimesKept(old(c.stallInspector.cachedTensorTable), c.stallInspector.cachedTensorTable, now)
    ensures Stamp(c.stallInspector) == Checked(old(Stamp(c.stallInspector)), now)
    ensures At(c, r.(queue := [], watched := watched))
    ensures
      var prepared := Prepare(r, input, Config(limit, c.stallInspector.performStallCheck), c.isCoordinator);
      ok == prepared.Ok? && (ok ==> prepared.value.1 == watched && Publishes(cc, prepared.value.0, |r.cache.slots|))
  {
    ViewFits(c, r);
    ghost var missing;
    messages, ok, input, missing := c.BeforeSync(cc, down, now, limit);
    watched := c.stallInspector.cachedTensorTable.Keys;
    if DistinctNames(r.queue) { TimesOfKept(old(c.stallInspector.View()), r, now); }
  }

  lemma {:induction false} TimesOfKept(s: Stalls, r: Rank, now: int)
    requires DistinctNames(r.queue)
    ensures TimesKept(s.cached, TimesOf(s, r, now), now)
  {
    forall n | n in TimesOf(s, r, now) ensures TimesOf(s, r, now)[n] == if n in s.cached then s.cached[n] else now {
      TimesAre(s.cached, r.queue, r.cache, now, n);
    }
  }

  /** The rank has sorted its messages. */
  ghost predicate Resumed(c: Controller, r: Rank, s: Sorted)
    reads c, c.tensorQueue, c.responseCache, c.stallInspector
  {
    At(c, Rank(r.table, s.kept, s.cache, s.watched, []))
  }

  method Resume(c: Controller, messages: seq<Request>, all: Report, limit: int, ghost r: Rank,
      ghost watched: set<string>)
    returns (sent: seq<Request>, ok: bool)
    requires At(c, r.(queue := [], watched := watched)) && messages == r.queue
    modifies c.responseCache, c.tensorQueue`queue, c.stallInspector`cachedTensorTable
    ensures TimesShrunk(old(c.stallInspector.cachedTensorTable), c.stallInspector.cachedTensorTable)
    ensures
      var sorted := SortOut(r, watched, all, Config(limit, c.stallInspector.performStallCheck));
      ok == sorted.Ok? && (ok ==> Resumed(c, r, sorted.value) && sent == sorted.value.sent)
  {
    hide SortOut;
    ghost var before := c.View();
    sent, ok := c.AfterSync(messages, all, limit);
    SortOutFields(before.(queue := messages), r, watched, all, Config(limit, c.stallInspector.performStallCheck));
  }

  lemma {:induction false} SortOutFields(a: Rank, b: Rank, watched: set<string>, all: Report, cfg: Config)
    requires a.cache == b.cache && a.queue == b.queue
    ensures SortOut(a, watched, all, cfg) == SortOut(b, watched, all, cfg)
  {
  }

  /** The rank has done its part of the cycle. */
  ghost predicate Done(c: Controller, r: Rank)
    reads c, c.tensorQueue, c.responseCache, c.stallInspector
  {
    At(c, r.(pending := []))
  }

  method FinishAlone(c: Controller, all: Report, limit: int, ghost watching: bool, ghost r: Rank, ghost s: Sorted)
    returns (list: ResponseList, ok: bool)
    requires Resumed(c, r, s)
    modifies c.responseCache
    ensures
      var done := FinishFast(r, s, all, Config(limit, watching));
      ok == done.Ok? && (ok ==> Done(c, done.value.0) && done.value.1 == list && done.value.0.pending == list.responses)
  {
    ghost var v := c.View();
    FastFields(v, Sorted(v.cache, v.queue, [], v.watched), r, s, all, limit, watching);
    list, ok := c.AnswerFromCache(all, limit);
    FastPending(r, s, all, Config(limit, watching));
    hide FinishFast;
  }

  lemma {:induction false} FastFields(a: Rank, s: Sorted, b: Rank, u: Sorted, all: Report, limit: int, watching: bool)
    requires a.table == b.table && s.kept == u.kept && s.cache == u.cache && s.watched == u.watched
    ensures FinishFast(a, s, all, Config(limit, false)) == FinishFast(b, u, all, Config(limit, watching))
  {
  }

  lemma {:induction false} FastPending(r: Rank, s: Sorted, all: Report, cfg: Config)
    ensures FinishFast(r, s, all, cfg).Ok? ==>
      FinishFast(r, s, all, cfg).value.0.pending == FinishFast(r, s, all, cfg).value.1.responses
  {
  }

  method FinishTold(c: Controller, list: seq<Response>, ghost r: Rank, ghost s: Sorted) returns (ok: bool)
    requires Resumed(c, r, s) && forall x :: x in list ==> x.names != []
    modifies c.responseCache
    ensures
      var done := FinishSlow(r, s, list, c.size);
      ok == done.Ok? && (ok ==> Done(c, done.value) && done.value.pending == list)
  {
    ghost var v := c.View();
    SlowFields(v, Sorted(v.cache, v.queue, [], v.watched), r, s, list, c.size);
    ok := c.Finish(list);
    SlowPending(r, s, list, c.size);
    hide FinishSlow;
  }

  lemma {:induction false} SlowFields(a: Rank, s: Sorted, b: Rank, u: Sorted, list: seq<Response>, size: nat)
    requires a.table == b.table && s.kept == u.kept && s.cache == u.cache && s.watched == u.watched
    ensures FinishSlow(a, s, list, size) == FinishSlow(b, u, list, size)
  {
  }

  lemma {:induction false} SlowPending(r: Rank, s: Sorted, list: seq<Response>, size: nat)
    ensures FinishSlow(r, s, list, size).Ok? ==> FinishSlow(r, s, list, size).value.pending == list
  {
  }

  // ---------------------------------------------------------------------
  // All ranks
  // ---------------------------------------------------------------------

  ghost function Parts(cs: seq<Controller>): set<object>
  {
    (set c | c in cs :: c as object) + (set c | c in cs :: c.tensorQueue as object)
    + (set c | c in cs :: c.responseCache as object) + (set c | c in cs :: c.stallInspector as object)
  }

  /** The states of all ranks, and of the coordinator's tables. */
  ghost predicate AllAt(cs: seq<Controller>, w: World, setup: Setup)
    reads Parts(cs)
  {
    && cs != [] && |w.ranks| == |cs| == |setup.stamps| == |setup.started| && cs[0].Tables() == w.coord
    && (forall i :: 0 <= i < |cs| ==> cs[i] in cs && At(cs[i], w.ranks[i]))
    && (forall i :: 0 <= i < |cs| ==> cs[i] in cs && Configured(cs[i], i, |cs|, setup))
  }

  lemma {:induction false} PartOf(cs: seq<Controller>, i: nat)
    requires i < |cs|
    ensures cs[i] in Parts(cs) && cs[i].tensorQueue in Parts(cs) && cs[i].responseCache in Parts(cs)
    ensures cs[i].stallInspector in Parts(cs)
  {
    assert cs[i] in cs;
  }

  function With(w: World, i: nat, r: Rank): World
    requires i < |w.ranks|
  {
    World(w.ranks[i := r], w.coord)
  }

  /** What the surroundings of rank i contribute to the cycle. */
  ghost function InputAt(cs: seq<Controller>, i: nat, w: World, down: bool, now: int): Input
    requires i < |cs| == |w.ranks|
    reads cs[i].stallInspector
  {
    InputOf(cs[i].stallInspector.View(), w.ranks[i], down, |cs|, i == 0, now)
  }

  /** The contributions to the first k ranks. */
  ghost function Inputs(cs: seq<Controller>, k: nat, w: World, down: seq<bool>, now: int): (s: seq<Input>)
    requires k <= |cs| == |w.ranks| == |down|
    reads Parts(cs)
    ensures |s| == k && forall i :: 0 <= i < k ==> cs[i] in cs && s[i] == InputAt(cs, i, w, down[i], now)
  {
    if k == 0 then []
    else
      PartOf(cs, k - 1);
      Inputs(cs, k - 1, w, down, now) + [InputAt(cs, k - 1, w, down[k - 1], now)]
  }

  /** Rank j's inspector has not been used yet in this cycle. */
  ghost predicate Waits(cs: seq<Controller>, j: nat, w: World, down: seq<bool>, now: int, inputs: seq<Input>,
      started: seq<map<string, int>>)
    requires j < |cs|
    reads cs[j].stallInspector
  {
    |cs| == |w.ranks| == |down| == |inputs| && inputs[j] == InputAt(cs, j, w, down[j], now)
      && Begins(cs[j], j, w, started)
  }

  ghost predicate Awaiting(cs: seq<Controller>, i: nat, w: World, down: seq<bool>, now: int, inputs: seq<Input>,
      started: seq<map<string, int>>)
    reads Parts(cs)
  {
    |cs| == |w.ranks| == |down| == |inputs| && forall j :: i <= j < |cs| ==>
      cs[j] in cs && Waits(cs, j, w, down, now, inputs, started)
  }

  lemma {:induction false} AwaitingApart(cs: seq<Controller>, i: nat, w: World, down: seq<bool>, now: int,
      inputs: seq<Input>,
      started: seq<map<string, int>>)
    requires Apart(cs) && Awaiting(cs, i, w, down, now, inputs, started) && i < |cs|
    ensures |cs| == |w.ranks| == |down| == |inputs| && inputs[i] == InputAt(cs, i, w, down[i], now)
    ensures Begins(cs[i], i, w, started)
    ensures forall j :: i < j < |cs| ==>
      Waits(cs, j, w, down, now, inputs, started) && cs[j].stallInspector != cs[i].stallInspector
  {
    assert Waits(cs, i, w, down, now, inputs, started);
  }

  lemma {:induction false} AwaitingNext(cs: seq<Controller>, i: nat, w: World, down: seq<bool>, now: int,
      inputs: seq<Input>,
      started: seq<map<string, int>>)
    requires |cs| == |w.ranks| == |down| == |inputs|
    requires forall j :: i < j < |cs| ==> Waits(cs, j, w, down, now, inputs, started)
    ensures Awaiting(cs, i + 1, w, down, now, inputs, started)
  {
    forall j | i < j < |cs| ensures cs[j] in cs { }
  }

  /** The inspector is as it was when the cycle began. */
  ghost predicate Begins(c: Controller, i: nat, w: World, started: seq<map<string, int>>)
    reads c.stallInspector
  {
    i < |w.ranks| && i < |started| && DistinctNames(w.ranks[i].queue)
      && c.stallInspector.cachedTensorTable == started[i]
  }

  method PublishNth(cs: seq<Controller>, i: nat, cc: CacheCoordinator, down: bool, now: int, limit: int,
      ghost setup: Setup,
      ghost w: World)
    returns (messages: seq<Request>, ok: bool, ghost input: Input, ghost watched: set<string>)
    requires Apart(cs) && AllAt(cs, w, setup) && i < |cs|
    requires Publishes(cc, Report({}, {}, false, false), |w.ranks[i].cache.slots|)
    requires setup.now == now && Begins(cs[i], i, w, setup.started)
    modifies cs[i].tensorQueue, cs[i].stallInspector, cc
    ensures messages == w.ranks[i].queue && input == old(InputAt(cs, i, w, down, now))
    ensures i < |setup.stamps|
    ensures AllAt(cs, With(w, i, w.ranks[i].(queue := [], watched := watched)), Advance(setup, i, now))
    ensures
      var prepared := Prepare(w.ranks[i], input, Config(limit, setup.watching), i == 0);
      ok == prepared.Ok?
        && (ok ==> prepared.value.1 == watched && Publishes(cc, prepared.value.0, |w.ranks[i].cache.slots|))
  {
    hide At, Prepare, Controller.Tables, Reports;
    messages, ok, input, watched := Publish(cs[i], cc, down, now, limit, w.ranks[i]);
  }

  /** The worlds that ranks pass through: before their turn as in `w`, after it as `next` says. */
  ghost predicate Midway(w: World, v: World, i: nat, next: seq<Rank>) {
    && |v.ranks| == |w.ranks| && v.coord == w.coord && |next| == i <= |w.ranks|
    && (forall j :: 0 <= j < i ==> v.ranks[j] == next[j])
      && (forall j :: i <= j < |w.ranks| ==> v.ranks[j] == w.ranks[j])
  }

  lemma {:induction false} MidwayNext(w: World, v: World, i: nat, next: seq<Rank>, r: Rank)
    requires Midway(w, v, i, next) && i < |w.ranks|
    ensures Midway(w, With(v, i, r), i + 1, next + [r])
  {
  }

  lemma {:induction false} MidwayAll(w: World, v: World, next: seq<Rank>)
    requires Midway(w, v, |w.ranks|, next)
    ensures v == World(next, w.coord)
  {
    assert v.ranks == next;
  }

  /** A rank's turn to publish: its messages, what it publishes, and its state then. */
  datatype Turn = Turn(queue: seq<Request>, prepared: Result<(Report, set<string>)>, left: Rank)

  ghost predicate Turned(r: Rank, input: Input, cfg: Config, isCoordinator: bool, t: Turn) {
    && t.queue == r.queue && t.prepared == Prepare(r, input, cfg, isCoordinator)
    && (t.prepared.Ok? ==> t.left == r.(queue := [], watched := t.prepared.value.1))
  }

  /** The first turns have been taken, and led from `w` to `v`. */
  ghost predicate TurnsTaken(w: World, v: World, inputs: seq<Input>, cfg: Config, turns: seq<Turn>, ok: bool) {
    && |turns| <= |w.ranks| == |v.ranks| == |inputs| && v.coord == w.coord
    && (forall j :: 0 <= j < |turns| ==>
      Turned(w.ranks[j], inputs[j], cfg, j == 0, turns[j]) && v.ranks[j] == turns[j].left)
    && (forall j :: |turns| <= j < |w.ranks| ==> v.ranks[j] == w.ranks[j])
    && (ok <==> forall j :: 0 <= j < |turns| ==> turns[j].prepared.Ok?)
  }

  lemma {:induction false} NextTurn(w: World, v: World, inputs: seq<Input>, cfg: Config, turns: seq<Turn>, ok: bool,
      t: Turn)
    requires TurnsTaken(w, v, inputs, cfg, turns, ok) && |turns| < |w.ranks|
    requires Turned(w.ranks[|turns|], inputs[|turns|], cfg, |turns| == 0, t)
    ensures TurnsTaken(w, With(v, |turns|, t.left), inputs, cfg, turns + [t], ok && t.prepared.Ok?)
  {
    hide Turned;
  }

  ghost predicate Starts(cc: CacheCoordinator, t: Turn, n: nat)
    reads cc
  {
    t.prepared.Ok? ==> Publishes(cc, t.prepared.value.0, n)
  }

  method PublishTurn(cs: seq<Controller>, i: nat, cc: CacheCoordinator, down: bool, now: int, limit: int,
      ghost setup: Setup,
      ghost w: World, ghost v: World, ghost input: Input)
    returns (messages: seq<Request>, ok: bool, ghost t: Turn)
    requires Apart(cs) && AllAt(cs, v, setup) && i < |cs| == |w.ranks| == |v.ranks|
    requires input == InputAt(cs, i, w, down, now)
    requires v.ranks[i] == w.ranks[i] && Publishes(cc, Report({}, {}, false, false), |w.ranks[i].cache.slots|)
    requires setup.now == now && Begins(cs[i], i, w, setup.started)
    modifies cs[i].tensorQueue, cs[i].stallInspector, cc
    ensures i < |setup.stamps| && AllAt(cs, With(v, i, t.left), Advance(setup, i, now))
    ensures ok == t.prepared.Ok? && messages == t.queue
    ensures Turned(w.ranks[i], input, Config(limit, setup.watching), i == 0, t)
      && Starts(cc, t, |w.ranks[i].cache.slots|)
  {
    hide AllAt, Apart, With, Prepare, Reports;
    ghost var got, watched;
    messages, ok, got, watched := PublishNth(cs, i, cc, down, now, limit, setup, v);
    t := Turn(messages, Prepare(w.ranks[i], input, Config(limit, setup.watching), i == 0),
              v.ranks[i].(queue := [], watched := watched));
  }

  ghost predicate Different(ccs: seq<CacheCoordinator>) {
    forall i, j :: 0 <= i < j < |ccs| ==> ccs[i] != ccs[j]
  }

  ghost predicate AllBlank(ccs: seq<CacheCoordinator>, bits: nat)
    reads ccs
  {
    forall i :: 0 <= i < |ccs| ==> Publishes(ccs[i], Report({}, {}, false, false), bits)
  }

  /** The first ranks' bits are recorded, the others' are still blank. */
  ghost predicate Recorded(ccs: seq<CacheCoordinator>, turns: seq<Turn>, bits: nat)
    reads ccs
  {
    && |turns| <= |ccs| && Different(ccs)
    && (forall j :: 0 <= j < |turns| ==> Starts(ccs[j], turns[j], bits))
    && (forall j :: |turns| <= j < |ccs| ==> Publishes(ccs[j], Report({}, {}, false, false), bits))
  }

  lemma {:induction false} RecordedNext(ccs: seq<CacheCoordinator>, turns: seq<Turn>, bits: nat, t: Turn)
    requires |turns| < |ccs| && Different(ccs) && Starts(ccs[|turns|], t, bits)
    requires forall j :: 0 <= j < |turns| ==> Starts(ccs[j], turns[j], bits)
    requires forall j :: |turns| < j < |ccs| ==> Publishes(ccs[j], Report({}, {}, false, false), bits)
    ensures Recorded(ccs, turns + [t], bits)
  {
    hide Reports, Starts;
  }

  method PublishStep(cs: seq<Controller>, ccs: seq<CacheCoordinator>, i: nat, down: bool, now: int, limit: int,
      ghost setup: Setup, bits: nat, ghost w: World, ghost v: World, ghost turns: seq<Turn>, ghost input: Input)
    returns (messages: seq<Request>, ok: bool, ghost t: Turn)
    requires Apart(cs) && AllAt(cs, v, setup) && i == |turns| < |cs| == |w.ranks| == |v.ranks| == |ccs|
    requires v.ranks[i] == w.ranks[i] && |w.ranks[i].cache.slots| == bits && Recorded(ccs, turns, bits)
    requires input == InputAt(cs, i, w, down, now)
    requires setup.now == now && Begins(cs[i], i, w, setup.started)
    modifies cs[i].tensorQueue, cs[i].stallInspector, ccs[i]
    ensures i < |setup.stamps| && AllAt(cs, With(v, i, t.left), Advance(setup, i, now))
    ensures ok == t.prepared.Ok? && messages == t.queue
    ensures Turned(w.ranks[i], input, Config(limit, setup.watching), i == 0, t) && Recorded(ccs, turns + [t], bits)
  {
    assert forall j :: 0 <= j < i ==> Starts(ccs[j], turns[j], bits) && ccs[j] != ccs[i];
    assert forall j :: i < j < |ccs| ==> Publishes(ccs[j], Report({}, {}, false, false), bits) && ccs[j] != ccs[i];
    assert Publishes(ccs[i], Report({}, {}, false, false), bits) && Different(ccs);
    assert forall j :: 0 <= j < |ccs| ==>
      ccs[j] as object != cs[i].tensorQueue && ccs[j] as object != cs[i].stallInspector;
    hide *;
    messages, ok, t := PublishTurn(cs, i, ccs[i], down, now, limit, setup, w, v, input);
    forall j | 0 <= j < i ensures Starts(ccs[j], turns[j], bits) {
      assert old(Starts(ccs[j], turns[j], bits)) && unchanged(ccs[j]);
    }
    forall j | i < j < |ccs| ensures Publishes(ccs[j], Report({}, {}, false, false), bits) {
      assert unchanged(ccs[j]);
    }
    RecordedNext(ccs, turns, bits, t);
  }

  /** The inspectors of the other ranks are not touched. */
  method PublishWaiting(cs: seq<Controller>, ccs: seq<CacheCoordinator>, i: nat, down: seq<bool>, now: int, limit: int,
      ghost setup: Setup, bits: nat, ghost w: World, ghost v: World, ghost turns: seq<Turn>,
      ghost inputs: seq<Input>)
    returns (messages: seq<Request>, ok: bool, ghost t: Turn)
    requires Apart(cs) && AllAt(cs, v, setup) && i == |turns| < |cs| == |w.ranks| == |v.ranks| == |ccs|
    requires v.ranks[i] == w.ranks[i] && |w.ranks[i].cache.slots| == bits && Recorded(ccs, turns, bits)
    requires setup.now == now
    requires Awaiting(cs, i, w, down, now, inputs, setup.started) && |down| == |cs| == |inputs|
    modifies cs[i].tensorQueue, cs[i].stallInspector, ccs[i]
    ensures i < |setup.stamps| && AllAt(cs, With(v, i, t.left), Advance(setup, i, now))
    ensures ok == t.prepared.Ok? && messages == t.queue
    ensures Turned(w.ranks[i], inputs[i], Config(limit, setup.watching), i == 0, t) && Recorded(ccs, turns + [t], bits)
    ensures Awaiting(cs, i + 1, w, down, now, inputs, setup.started)
  {
    AwaitingApart(cs, i, w, down, now, inputs, setup.started);
    assert forall j :: i < j < |cs| ==>
      cs[j].stallInspector as object != cs[i].tensorQueue && cs[j].stallInspector as object != ccs[i];
    hide *;
    messages, ok, t := PublishStep(cs, ccs, i, down[i], now, limit, setup, bits, w, v, turns, inputs[i]);
    forall j | i < j < |cs| ensures Waits(cs, j, w, down, now, inputs, setup.started) {
      assert unchanged(cs[j].stallInspector);
    }
    AwaitingNext(cs, i, w, down, now, inputs, setup.started);
  }

  /** All ranks publish what they have. */
  method PublishAll(cs: seq<Controller>, ccs: seq<CacheCoordinator>, down: seq<bool>, now: int, limit: int,
      ghost setup: Setup,
      bits: nat, ghost w: World, ghost inputs: seq<Input>)
    returns (queues: seq<seq<Request>>, ok: bool, ghost turns: seq<Turn>, ghost v: World)
    requires Apart(cs) && AllAt(cs, w, setup) && |down| == |cs| == |ccs| && Different(ccs) && AllBlank(ccs, bits)
    requires forall i :: 0 <= i < |cs| ==> |w.ranks[i].cache.slots| == bits
    requires setup.now == now
    requires Awaiting(cs, 0, w, down, now, inputs, setup.started) && |inputs| == |cs|
    modifies Parts(cs), ccs
    ensures |queues| == |turns| == |w.ranks| == |cs| && AllAt(cs, v, AllChecked(setup, now))
    ensures TurnsTaken(w, v, inputs, Config(limit, setup.watching), turns, ok) && Recorded(ccs, turns, bits)
    ensures QueuesOf(queues, turns)
  {
    hide *;
    queues, ok, turns, v := [], true, [], w;
    var i := 0;
    SizesAgree(cs, w, setup);
    ghost var s := setup;
    AdvancedNone(setup, now);
    NoTurns(w, inputs, Config(limit, setup.watching), ccs, bits);
    while i < |cs|
      invariant i == |turns| <= |cs| && AllAt(cs, v, s) && QueuesOf(queues, turns)
      invariant Advanced(setup, s, i, now) && s.watching == setup.watching && s.started == setup.started && s.now == now
      invariant TurnsTaken(w, v, inputs, Config(limit, setup.watching), turns, ok) && Recorded(ccs, turns, bits)
      invariant Awaiting(cs, i, w, down, now, inputs, setup.started)
    {
      var messages, fine;
      ghost var t;
      StillToCome(w, v, inputs, Config(limit, setup.watching), turns, ok);
      PartOf(cs, i);
      assert ccs[i] in ccs;
      messages, fine, t := PublishWaiting(cs, ccs, i, down, now, limit, s, bits, w, v, turns, inputs);
      AdvancedNext(setup, s, i, now);
      NextTurn(w, v, inputs, Config(limit, setup.watching), turns, ok, t);
      QueuesNext(queues, turns, t);
      s, v, turns, ok, queues := Advance(s, i, now), With(v, i, t.left), turns + [t], ok && fine, queues + [messages];
      i := i + 1;
    }
    QueuesSize(queues, turns);
    AdvancedAll(setup, s, now);
  }

  ghost predicate QueuesOf(queues: seq<seq<Request>>, turns: seq<Turn>) {
    |queues| == |turns| && forall i :: 0 <= i < |turns| ==> queues[i] == turns[i].queue
  }

  lemma {:induction false} SizesAgree(cs: seq<Controller>, w: World, setup: Setup)
    requires AllAt(cs, w, setup)
    ensures |w.ranks| == |cs| == |setup.stamps| > 0
  {
  }

  lemma {:induction false} NoTurns(w: World, inputs: seq<Input>, cfg: Config, ccs: seq<CacheCoordinator>, bits: nat)
    requires |inputs| == |w.ranks| && Different(ccs) && AllBlank(ccs, bits)
    ensures TurnsTaken(w, w, inputs, cfg, [], true) && Recorded(ccs, [], bits) && QueuesOf([], [])
  {
  }

  lemma {:induction false} QueuesNext(queues: seq<seq<Request>>, turns: seq<Turn>, t: Turn)
    requires QueuesOf(queues, turns)
    ensures QueuesOf(queues + [t.queue], turns + [t])
  {
  }

  lemma {:induction false} QueuesSize(queues: seq<seq<Request>>, turns: seq<Turn>)
    requires QueuesOf(queues, turns)
    ensures |queues| == |turns|
  {
  }

  lemma {:induction false} StillToCome(w: World, v: World, inputs: seq<Input>, cfg: Config, turns: seq<Turn>, ok: bool)
    requires TurnsTaken(w, v, inputs, cfg, turns, ok) && |turns| < |w.ranks|
    ensures |v.ranks| == |w.ranks| && v.ranks[|turns|] == w.ranks[|turns|]
  {
  }

  method ResumeNth(cs: seq<Controller>, i: nat, messages: seq<Request>, all: Report, limit: int, ghost setup: Setup,
      ghost w: World, ghost r: Rank, ghost watched: set<string>)
    returns (sent: seq<Request>, ok: bool, ghost next: Rank)
    requires Apart(cs) && AllAt(cs, w, setup) && i < |cs|
    requires w.ranks[i] == r.(queue := [], watched := watched) && messages == r.queue
    requires SortOut(r, watched, all, Config(limit, setup.watching)).Ok?
    modifies cs[i].tensorQueue, cs[i].stallInspector, cs[i].responseCache
    ensures
      var s := SortOut(r, watched, all, Config(limit, setup.watching)).value;
      ok && sent == s.sent && next == Rank(r.table, s.kept, s.cache, s.watched, [])
    ensures AllAt(cs, With(w, i, next), setup)
  {
    hide At, SortOut, Controller.Tables;
    sent, ok := ResumeKeeping(cs[i], messages, all, limit, setup.watching, r, watched);
    ghost var s := SortOut(r, watched, all, Config(limit, setup.watching)).value;
    next := Rank(r.table, s.kept, s.cache, s.watched, []);
  }

  method ResumeKeeping(c: Controller, messages: seq<Request>, all: Report, limit: int, ghost watching: bool,
      ghost r: Rank, ghost watched: set<string>)
    returns (sent: seq<Request>, ok: bool)
    requires At(c, r.(queue := [], watched := watched)) && messages == r.queue
      && c.stallInspector.performStallCheck == watching
    modifies c.responseCache, c.tensorQueue`queue, c.stallInspector`cachedTensorTable
    ensures c.Tables() == old(c.Tables())
    ensures TimesShrunk(old(c.stallInspector.cachedTensorTable), c.stallInspector.cachedTensorTable)
    ensures
      var sorted := SortOut(r, watched, all, Config(limit, watching));
      && ok == sorted.Ok?
      && (ok ==>
            && At(c, Rank(r.table, sorted.value.kept, sorted.value.cache, sorted.value.watched, []))
            && sent == sorted.value.sent)
  {
    hide SortOut;
    sent, ok := Resume(c, messages, all, limit, r, watched);
  }

  /** All ranks erase what is invalid and sort their messages. */
  method ResumeAll(cs: seq<Controller>, queues: seq<seq<Request>>, ccs: seq<CacheCoordinator>, limit: int,
      ghost setup: Setup,
      ghost w: World, ghost prepared: seq<(Report, set<string>)>, ghost left: seq<Rank>, ghost all: Report,
        ghost sorted: seq<Sorted>)
    returns (sents: seq<seq<Request>>, ghost next: seq<Rank>)
    requires Apart(cs) && |cs| == |queues| == |ccs| == |prepared| == |left| == |w.ranks| == |sorted|
    requires AllAt(cs, World(left, w.coord), setup)
    requires forall i :: 0 <= i < |cs| ==> ccs[i].View() == all && queues[i] == w.ranks[i].queue
    requires forall i :: 0 <= i < |cs| ==> left[i] == w.ranks[i].(queue := [], watched := prepared[i].1)
    requires forall i :: 0 <= i < |cs| ==>
      SortOut(w.ranks[i], prepared[i].1, all, Config(limit, setup.watching)) == Ok(sorted[i])
    modifies Parts(cs)
    ensures |sents| == |next| == |cs| && AllAt(cs, World(next, w.coord), setup)
    ensures forall i :: 0 <= i < |cs| ==> sents[i] == sorted[i].sent
    ensures forall i :: 0 <= i < |cs| ==>
      next[i] == Rank(w.ranks[i].table, sorted[i].kept, sorted[i].cache, sorted[i].watched, [])
  {
    sents, next := [], [];
    ghost var start := World(left, w.coord);
    ghost var v := start;
    hide AllAt, SortOut, Parts;
    var i := 0;
    while i < |cs|
      invariant i <= |cs| && |sents| == |next| == i && AllAt(cs, v, setup) && Midway(start, v, i, next)
      invariant forall j :: 0 <= j < |cs| ==> ccs[j].View() == all
      invariant forall j :: 0 <= j < i ==> sents[j] == sorted[j].sent
      invariant forall j :: 0 <= j < i ==>
        next[j] == Rank(w.ranks[j].table, sorted[j].kept, sorted[j].cache, sorted[j].watched, [])
    {
      var mine := Report(ccs[i].cacheHits, ccs[i].invalidBits, ccs[i].uncachedInQueue, ccs[i].shouldShutDown);
      PartOf(cs, i);
      var sent, fine;
      ghost var r;
      sent, fine, r := ResumeNth(cs, i, queues[i], mine, limit, setup, v, w.ranks[i], prepared[i].1);
      MidwayNext(start, v, i, next, r);
      v, next, sents := With(v, i, r), next + [r], sents + [sent];
      i := i + 1;
    }
    MidwayAll(start, v, next);
  }

  // ---------------------------------------------------------------------
  // The end of a cycle
  // ---------------------------------------------------------------------

  /** The state of a rank that has sorted its messages. */
  function Sorting(r: Rank, s: Sorted): Rank {
    Rank(r.table, s.kept, s.cache, s.watched, [])
  }

  method AloneNth(cs: seq<Controller>, i: nat, all: Report, limit: int, ghost setup: Setup,
      ghost w: World, ghost r: Rank, ghost s: Sorted)
    returns (list: ResponseList, ghost next: Rank)
    requires Apart(cs) && AllAt(cs, w, setup) && i < |cs| && w.ranks[i] == Sorting(r, s)
    requires FinishFast(r, s, all, Config(limit, setup.watching)).Ok?
    modifies cs[i].responseCache
    ensures FinishFast(r, s, all, Config(limit, setup.watching)) == Ok((next, list))
    ensures AllAt(cs, With(w, i, next.(pending := [])), setup)
  {
    hide FinishFast, At, Controller.Tables;
    var fine;
    list, fine := FinishAloneKeeping(cs[i], all, limit, setup.watching, r, s);
    next := FinishFast(r, s, all, Config(limit, setup.watching)).value.0;
  }

  method FinishAloneKeeping(c: Controller, all: Report, limit: int, ghost watching: bool, ghost r: Rank,
      ghost s: Sorted)
    returns (list: ResponseList, ok: bool)
    requires At(c, Sorting(r, s))
    modifies c.responseCache
    ensures c.Tables() == old(c.Tables())
    ensures
      var done := FinishFast(r, s, all, Config(limit, watching));
      ok == done.Ok? && (ok ==> At(c, done.value.0.(pending := [])) && done.value.1 == list)
  {
    hide FinishFast;
    list, ok := FinishAlone(c, all, limit, watching, r, s);
  }

  /** The first ranks have finished as in `o`, the others are as in `v`. */
  ghost predicate HalfDone(v: World, u: World, o: Outcome, i: nat, lists: seq<ResponseList>) {
    && |u.ranks| == |v.ranks| == |o.world.ranks| == |o.lists| && u.coord == v.coord && i <= |o.lists|
      && lists == o.lists[..i]
    && (forall j :: 0 <= j < i ==> u.ranks[j] == o.world.ranks[j].(pending := []))
    && (forall j :: i <= j < |u.ranks| ==> u.ranks[j] == v.ranks[j])
  }

  lemma {:induction false} HalfDoneNone(v: World, o: Outcome)
    requires |v.ranks| == |o.world.ranks| == |o.lists|
    ensures HalfDone(v, v, o, 0, [])
  {
  }

  lemma {:induction false} HalfDoneAt(v: World, u: World, o: Outcome, i: nat, lists: seq<ResponseList>)
    requires HalfDone(v, u, o, i, lists) && i < |v.ranks|
    ensures i < |u.ranks| && u.ranks[i] == v.ranks[i]
  {
  }

  lemma {:induction false} HalfDoneNext(v: World, u: World, o: Outcome, i: nat, lists: seq<ResponseList>)
    requires HalfDone(v, u, o, i, lists) && i < |v.ranks|
    ensures i < |u.ranks| == |o.world.ranks| == |o.lists|
    ensures HalfDone(v, With(u, i, o.world.ranks[i].(pending := [])), o, i + 1, lists + [o.lists[i]])
  {
    assert o.lists[..i + 1] == o.lists[..i] + [o.lists[i]];
  }

  lemma {:induction false} HalfDoneAll(v: World, u: World, o: Outcome, lists: seq<ResponseList>)
    requires HalfDone(v, u, o, |v.ranks|, lists)
    ensures lists == o.lists && (v.coord == o.world.coord ==> u == Idle(o.world))
  {
    assert o.lists[..|o.lists|] == o.lists;
    assert u.ranks == Idle(o.world).ranks;
  }

  lemma {:induction false} FastDoneEach(w: World, sorted: seq<Sorted>, all: Report, cfg: Config, o: Outcome)
    requires |sorted| == |w.ranks| && FastDone(w, sorted, all, cfg, o)
    ensures |o.world.ranks| == |o.lists| == |w.ranks| && o.world.coord == w.coord
    ensures forall i :: 0 <= i < |w.ranks| ==>
      FinishFast(w.ranks[i], sorted[i], all, cfg) == Ok((o.world.ranks[i], o.lists[i]))
  {
  }

  lemma {:induction false} SlowDoneEach(w: World, sorted: seq<Sorted>, answer: (Coordinator, seq<Response>),
      all: Report, o: Outcome)
    requires |sorted| == |w.ranks| && SlowDone(w, sorted, answer, all, o)
    ensures |o.world.ranks| == |o.lists| == |w.ranks| && o.world.coord == answer.0
    ensures forall i :: 0 <= i < |w.ranks| ==>
      FinishSlow(w.ranks[i], sorted[i], answer.1, |w.ranks|) == Ok(o.world.ranks[i])
    ensures forall i :: 0 <= i < |w.ranks| ==> o.lists[i] == ResponseList(answer.1, all.shutdown)
  {
  }

  /** All ranks answer from their caches. */
  method AloneAll(cs: seq<Controller>, all: Report, limit: int, ghost setup: Setup,
      ghost w: World, ghost sorted: seq<Sorted>, ghost v: World, ghost o: Outcome)
    returns (lists: seq<ResponseList>)
    requires Apart(cs) && AllAt(cs, v, setup) && |sorted| == |w.ranks| == |cs|
    requires v.coord == w.coord && forall i :: 0 <= i < |cs| ==> v.ranks[i] == Sorting(w.ranks[i], sorted[i])
    requires FastDone(w, sorted, all, Config(limit, setup.watching), o)
    modifies Parts(cs)
    ensures lists == o.lists && AllAt(cs, Idle(o.world), setup)
  {
    hide AllAt, FastDone, FinishFast;
    lists := [];
    ghost var u := v;
    SizesAgree(cs, v, setup);
    FastDoneEach(w, sorted, all, Config(limit, setup.watching), o);
    hide *;
    var i := 0;
    HalfDoneNone(v, o);
    while i < |cs|
      invariant i <= |cs| && AllAt(cs, u, setup) && HalfDone(v, u, o, i, lists)
    {
      PartOf(cs, i);
      var list;
      ghost var r;
      HalfDoneAt(v, u, o, i, lists);
      list, r := AloneNth(cs, i, all, limit, setup, u, w.ranks[i], sorted[i]);
      HalfDoneNext(v, u, o, i, lists);
      u, lists := With(u, i, r.(pending := [])), lists + [list];
      i := i + 1;
    }
    HalfDoneAll(v, u, o, lists);
  }

  /** The world once everything has been performed. */
  function Idle(w: World): World {
    World(seq(|w.ranks|, i requires 0 <= i < |w.ranks| => w.ranks[i].(pending := [])), w.coord)
  }

  method ToldNth(cs: seq<Controller>, i: nat, list: seq<Response>, ghost setup: Setup, ghost w: World, ghost r: Rank,
      ghost s: Sorted)
    returns (ghost next: Rank)
    requires Apart(cs) && AllAt(cs, w, setup) && i < |cs| && w.ranks[i] == Sorting(r, s)
    requires FinishSlow(r, s, list, |cs|).Ok? && forall x :: x in list ==> x.names != []
    modifies cs[i].responseCache
    ensures FinishSlow(r, s, list, |cs|) == Ok(next) && AllAt(cs, With(w, i, next.(pending := [])), setup)
  {
    hide FinishSlow, At, Controller.Tables;
    var fine := FinishToldKeeping(cs[i], list, r, s);
    next := FinishSlow(r, s, list, |cs|).value;
  }

  method FinishToldKeeping(c: Controller, list: seq<Response>, ghost r: Rank, ghost s: Sorted) returns (ok: bool)
    requires At(c, Sorting(r, s)) && forall x :: x in list ==> x.names != []
    modifies c.responseCache
    ensures c.Tables() == old(c.Tables())
    ensures
      var done := FinishSlow(r, s, list, c.size);
      ok == done.Ok? && (ok ==> At(c, done.value.(pending := [])))
  {
    hide FinishSlow;
    ok := FinishTold(c, list, r, s);
  }

  /** All ranks have received the coordinator's list. */
  method ToldAll(cs: seq<Controller>, list: seq<Response>, shutdown: bool, ghost setup: Setup,
      ghost w: World, ghost sorted: seq<Sorted>, ghost k: Coordinator, ghost all: Report, ghost v: World,
        ghost o: Outcome)
    returns (lists: seq<ResponseList>)
    requires Apart(cs) && AllAt(cs, v, setup) && |sorted| == |w.ranks| == |cs|
    requires v.coord == k && forall i :: 0 <= i < |cs| ==> v.ranks[i] == Sorting(w.ranks[i], sorted[i])
    requires SlowDone(w, sorted, (k, list), all, o) && shutdown == all.shutdown && forall x :: x in list ==>
      x.names != []
    modifies Parts(cs)
    ensures lists == o.lists && AllAt(cs, Idle(o.world), setup)
  {
    hide AllAt, SlowDone, FinishSlow;
    lists := [];
    ghost var u := v;
    SizesAgree(cs, v, setup);
    SlowDoneEach(w, sorted, (k, list), all, o);
    hide *;
    var i := 0;
    HalfDoneNone(v, o);
    while i < |cs|
      invariant i <= |cs| && AllAt(cs, u, setup) && HalfDone(v, u, o, i, lists)
    {
      PartOf(cs, i);
      HalfDoneAt(v, u, o, i, lists);
      ghost var r := ToldNth(cs, i, list, setup, u, w.ranks[i], sorted[i]);
      HalfDoneNext(v, u, o, i, lists);
      u, lists := With(u, i, r.(pending := [])), lists + [ResponseList(list, shutdown)];
      i := i + 1;
    }
    HalfDoneAll(v, u, o, lists);
  }

  // ---------------------------------------------------------------------
  // The whole cycle
  // ---------------------------------------------------------------------

  lemma {:induction false} AtIdle(cs: seq<Controller>, w: World, setup: Setup)
    requires AllAt(cs, w, setup)
    ensures AllIdle(w) && |w.ranks| == |cs|
  {
    forall i | 0 <= i < |cs| ensures w.ranks[i].pending == [] { assert At(cs[i], w.ranks[i]); }
  }

  lemma {:induction false} SameSlots(w: World, i: nat)
    requires Inv(w) && i < |w.ranks|
    ensures |w.ranks[i].cache.slots| == |w.ranks[0].cache.slots|
  {
    SameBits(w, i);
  }

  /** What was published, in the terms of the specification. */
  lemma {:induction false} TurnsPrepared(w: World, v: World, inputs: seq<Input>, cfg: Config, turns: seq<Turn>,
      ok: bool)
    requires TurnsTaken(w, v, inputs, cfg, turns, ok) && |turns| == |w.ranks| == |inputs|
    ensures |v.ranks| == |w.ranks| && v.coord == w.coord
    ensures ok ==> |AllOk(PrepareAll(w, inputs, cfg)).value| == |w.ranks|
    ensures ok <==> AllOk(PrepareAll(w, inputs, cfg)).Ok?
    ensures ok ==> forall i :: 0 <= i < |turns| ==>
      && turns[i].prepared == Ok(AllOk(PrepareAll(w, inputs, cfg)).value[i])
      && v.ranks[i] == w.ranks[i].(queue := [], watched := AllOk(PrepareAll(w, inputs, cfg)).value[i].1)
      && turns[i].queue == w.ranks[i].queue
  {
    hide Prepare;
    forall i | 0 <= i < |turns|
      ensures PrepareAll(w, inputs, cfg)[i] == turns[i].prepared
    {
      assert Turned(w.ranks[i], inputs[i], cfg, i == 0, turns[i]);
    }
    forall i | 0 <= i < |turns| && turns[i].prepared.Ok?
      ensures v.ranks[i] == w.ranks[i].(queue := [], watched := turns[i].prepared.value.1)
        && turns[i].queue == w.ranks[i].queue
    {
      assert Turned(w.ranks[i], inputs[i], cfg, i == 0, turns[i]);
    }
  }

  /** The bits of all ranks are those that were published. */
  lemma {:induction false} RecordedReports(ccs: seq<CacheCoordinator>, turns: seq<Turn>, bits: nat,
      prepared: seq<(Report, set<string>)>)
    requires Recorded(ccs, turns, bits) && |ccs| == |turns| == |prepared| > 0
    requires forall i :: 0 <= i < |turns| ==> turns[i].prepared == Ok(prepared[i])
    ensures Peers(ccs, bits) && (forall i :: 0 <= i < |ccs| ==> ccs[i].Valid()) && Views(ccs) == Reports(prepared)
  {
    forall i | 0 <= i < |ccs| ensures ccs[i].Valid() && ccs[i].View() == prepared[i].0 && ccs[i].numActiveBits == bits {
      assert Starts(ccs[i], turns[i], bits);
    }
  }

  /** The ranks' states once they have published. */
  ghost predicate AllPublished(w: World, v: World, queues: seq<seq<Request>>, prepared: seq<(Report, set<string>)>) {
    && |queues| == |v.ranks| == |w.ranks| == |prepared| && v.coord == w.coord
    && forall i :: 0 <= i < |w.ranks| ==>
      queues[i] == w.ranks[i].queue && v.ranks[i] == w.ranks[i].(queue := [], watched := prepared[i].1)
  }

  /** All ranks publish, each into a record of bits of its own. */
  method PublishBits(cs: seq<Controller>, ccs: seq<CacheCoordinator>, down: seq<bool>, now: int, limit: int, bits: nat,
      ghost setup: Setup, ghost w: World, ghost inputs: seq<Input>)
    returns (queues: seq<seq<Request>>, ok: bool, ghost v: World)
    requires Apart(cs) && AllAt(cs, w, setup) && |down| == |cs| == |w.ranks| == |ccs| == |inputs| > 0
    requires Different(ccs) && AllBlank(ccs, bits) && forall i :: 0 <= i < |cs| ==> |w.ranks[i].cache.slots| == bits
    requires setup.now == now
    requires Awaiting(cs, 0, w, down, now, inputs, setup.started)
    modifies Parts(cs), ccs
    ensures AllAt(cs, v, AllChecked(setup, now))
    ensures
      var prepared := AllOk(PrepareAll(w, inputs, Config(limit, setup.watching)));
      && ok == prepared.Ok?
      && (ok ==>
        && AllPublished(w, v, queues, prepared.value) && Peers(ccs, bits)
          && (forall i :: 0 <= i < |ccs| ==> ccs[i].Valid())
        && Views(ccs) == Reports(prepared.value))
  {
    hide *;
    ghost var turns;
    queues, ok, turns, v := PublishAll(cs, ccs, down, now, limit, setup, bits, w, inputs);
    TurnsPrepared(w, v, inputs, Config(limit, setup.watching), turns, ok);
    if ok { PublishedAll(w, v, ccs, queues, turns, inputs, bits, Config(limit, setup.watching)); }
  }

  lemma {:induction false} PublishedAll(w: World, v: World, ccs: seq<CacheCoordinator>, queues: seq<seq<Request>>,
      turns: seq<Turn>, inputs: seq<Input>, bits: nat, cfg: Config)
    requires |inputs| == |w.ranks| == |v.ranks| == |turns| == |queues| == |ccs| > 0 && v.coord == w.coord
    requires Recorded(ccs, turns, bits) && QueuesOf(queues, turns) && AllOk(PrepareAll(w, inputs, cfg)).Ok?
    requires
      var prepared := AllOk(PrepareAll(w, inputs, cfg)).value;
      && |prepared| == |turns|
      && forall i :: 0 <= i < |turns| ==>
        && turns[i].prepared == Ok(prepared[i]) && v.ranks[i] == w.ranks[i].(queue := [], watched := prepared[i].1)
        && turns[i].queue == w.ranks[i].queue
    ensures
      var prepared := AllOk(PrepareAll(w, inputs, cfg)).value;
      && AllPublished(w, v, queues, prepared) && Peers(ccs, bits) && (forall i :: 0 <= i < |ccs| ==> ccs[i].Valid())
      && Views(ccs) == Reports(prepared)
  {
    hide Prepare, PrepareAll, AllOk, Recorded;
    RecordedReports(ccs, turns, bits, AllOk(PrepareAll(w, inputs, cfg)).value);
    hide Peers, Views, Reports;
  }

  /** All ranks publish, and agree on the bits. */
  method AgreeOnBits(cs: seq<Controller>, ccs: seq<CacheCoordinator>, down: seq<bool>, now: int, limit: int, bits: nat,
      timeline: bool, ghost setup: Setup, ghost w: World, ghost inputs: seq<Input>)
    returns (queues: seq<seq<Request>>, ok: bool, ghost v: World)
    requires Apart(cs) && AllAt(cs, w, setup) && |down| == |cs| == |w.ranks| == |ccs| == |inputs| > 0
    requires Different(ccs) && AllBlank(ccs, bits) && forall i :: 0 <= i < |cs| ==> |w.ranks[i].cache.slots| == bits
    requires setup.now == now
    requires Awaiting(cs, 0, w, down, now, inputs, setup.started)
    modifies Parts(cs), ccs
    ensures AllAt(cs, v, AllChecked(setup, now))
    ensures
      var prepared := AllOk(PrepareAll(w, inputs, Config(limit, setup.watching)));
      && ok == prepared.Ok?
      && (ok ==>
        && AllPublished(w, v, queues, prepared.value)
        && (forall i :: 0 <= i < |ccs| ==> ccs[i].View() == Combine(Reports(prepared.value))))
  {
    hide *;
    queues, ok, v := PublishBits(cs, ccs, down, now, limit, bits, setup, w, inputs);
    if ok { SyncKeeping(cs, ccs, bits, timeline, AllChecked(setup, now), v, Views(ccs)); }
  }

  /** The agreement leaves the controllers alone. */
  method SyncKeeping(cs: seq<Controller>, ccs: seq<CacheCoordinator>, bits: nat, timeline: bool, ghost setup: Setup,
      ghost v: World, ghost reports: seq<Report>)
    requires AllAt(cs, v, setup) && Peers(ccs, bits) && (forall i :: 0 <= i < |ccs| ==> ccs[i].Valid())
    requires reports == Views(ccs) && reports != []
    modifies ccs
    ensures AllAt(cs, v, setup) && forall i :: 0 <= i < |ccs| ==> ccs[i].View() == Combine(reports)
  {
    OtherParts(cs, ccs);
    hide Views, Combine, At, Configured, Controller.Tables;
    SyncAll(ccs, bits, timeline);
  }

  /** The records of bits are no parts of the controllers. */
  lemma {:induction false} OtherParts(cs: seq<Controller>, ccs: seq<CacheCoordinator>)
    ensures forall cc :: cc in ccs ==> cc as object !in Parts(cs)
  {
  }

  lemma {:induction false} SortedEach(w: World, prepared: seq<(Report, set<string>)>, all: Report, cfg: Config,
      sorted: seq<Sorted>)
    requires |prepared| == |w.ranks| && AllOk(SortAll(w, prepared, all, cfg)) == Ok(sorted)
    ensures |sorted| == |w.ranks|
    ensures forall i :: 0 <= i < |w.ranks| ==> SortOut(w.ranks[i], prepared[i].1, all, cfg) == Ok(sorted[i])
  {
    hide SortOut;
    forall i | 0 <= i < |w.ranks| ensures SortOut(w.ranks[i], prepared[i].1, all, cfg) == Ok(sorted[i]) {
      assert SortAll(w, prepared, all, cfg)[i].Ok?;
    }
  }

  /** All ranks' states once their messages are sorted. */
  ghost predicate AllSorted(w: World, v: World, sents: seq<seq<Request>>, sorted: seq<Sorted>) {
    && |v.ranks| == |w.ranks| == |sents| == |sorted| && v.coord == w.coord
    && forall i :: 0 <= i < |w.ranks| ==> v.ranks[i] == Sorting(w.ranks[i], sorted[i]) && sents[i] == sorted[i].sent
  }

  /** All ranks go on from the agreed bits. */
  method SortMessages(cs: seq<Controller>, ccs: seq<CacheCoordinator>, queues: seq<seq<Request>>, limit: int,
      ghost setup: Setup, ghost w: World, ghost u: World, ghost prepared: seq<(Report, set<string>)>,
        ghost all: Report,
      ghost sorted: seq<Sorted>)
    returns (sents: seq<seq<Request>>, ghost v: World)
    requires Apart(cs) && AllAt(cs, u, setup) && AllPublished(w, u, queues, prepared) && |cs| == |ccs| == |w.ranks|
    requires forall i :: 0 <= i < |ccs| ==> ccs[i].View() == all
    requires AllOk(SortAll(w, prepared, all, Config(limit, setup.watching))) == Ok(sorted)
    modifies Parts(cs)
    ensures AllAt(cs, v, setup) && AllSorted(w, v, sents, sorted)
  {
    hide SortOut, SortAll, AllOk, AllAt, Parts, Apart, AllPublished, AllSorted;
    PublishedEach(w, u, queues, prepared);
    SortedEach(w, prepared, all, Config(limit, setup.watching), sorted);
    ghost var next;
    sents, next := ResumeAll(cs, queues, ccs, limit, setup, w, prepared, u.ranks, all, sorted);
    v := World(next, w.coord);
    SortedAre(w, next, sents, sorted);
  }

  lemma {:induction false} PublishedEach(w: World, u: World, queues: seq<seq<Request>>, prepared: seq<(Report,
      set<string>)>)
    requires AllPublished(w, u, queues, prepared)
    ensures |queues| == |u.ranks| == |w.ranks| == |prepared| && u == World(u.ranks, w.coord)
    ensures forall i :: 0 <= i < |w.ranks| ==> queues[i] == w.ranks[i].queue
    ensures forall i :: 0 <= i < |w.ranks| ==> u.ranks[i] == w.ranks[i].(queue := [], watched := prepared[i].1)
  {
  }

  lemma {:induction false} SortedAre(w: World, next: seq<Rank>, sents: seq<seq<Request>>, sorted: seq<Sorted>)
    requires |next| == |sents| == |sorted| == |w.ranks|
    requires forall i :: 0 <= i < |w.ranks| ==> sents[i] == sorted[i].sent
    requires forall i :: 0 <= i < |w.ranks| ==>
      next[i] == Rank(w.ranks[i].table, sorted[i].kept, sorted[i].cache, sorted[i].watched, [])
    ensures AllSorted(w, World(next, w.coord), sents, sorted)
  {
  }

  /** Without news: every rank answers from its own cache. */
  method AnswerAlone(cs: seq<Controller>, all: Report, limit: int, ghost setup: Setup, ghost w: World, ghost v: World,
      ghost sents: seq<seq<Request>>, ghost sorted: seq<Sorted>, ghost reports: seq<Report>)
    returns (lists: seq<ResponseList>)
    requires Apart(cs) && AllAt(cs, v, setup) && AllSorted(w, v, sents, sorted) && |cs| == |w.ranks|
    requires Round(w, reports, all, sorted) && AllIdle(w) && TakesFastPath(w.ranks[0], all)
    modifies Parts(cs)
    ensures
      var o := FastOutcome(w, sorted, all, Config(limit, setup.watching));
      o.Ok? && lists == o.value.lists && AllAt(cs, Idle(o.value.world), setup)
  {
    FastParts(w, Config(limit, setup.watching), reports, all, sorted);
    hide Round, AllIdle, FastOutcome, FastDone, AllAt, Parts, Idle;
    lists := AloneAll(cs, all, limit, setup, w, sorted, v,
      FastOutcome(w, sorted, all, Config(limit, setup.watching)).value);
  }

  /** What becomes ready with these messages has a request from each rank. */
  ghost predicate AllInRange(w: World, lists: seq<seq<Request>>) {
    var tally := Tally(w.coord, Concat(lists), |w.ranks|);
    InRange(tally.0, tally.1, |w.ranks|)
  }

  lemma {:induction false} WatchingApart(w: World, sorted: seq<Sorted>, all: Report, limit: int, a: bool, b: bool)
    requires w.ranks != [] && |sorted| == |w.ranks|
    ensures Coordinate(w, sorted, all, Config(limit, a)) == Coordinate(w, sorted, all, Config(limit, b))
  {
  }

  /** The coordinator's part; its own queue, table and cache stay as they are. */
  method CoordinateKeeping(c: Controller, sents: seq<seq<Request>>, all: Report, limit: int, now: int,
      ghost watching: bool,
      ghost w: World, ghost sorted: seq<Sorted>)
    returns (list: seq<Response>, ok: bool)
    requires c.size == |w.ranks| == |sorted| > 0 && At(c, Sorting(w.ranks[0], sorted[0])) && c.Tables() == w.coord
    requires sents == AllSent(sorted) && AllInRange(w, sents)
    modifies c`messageTable, c.stallInspector`uncachedTensorTable
    ensures At(c, Sorting(w.ranks[0], sorted[0]))
    ensures
      var answer := Coordinate(w, sorted, all, Config(limit, watching));
      ok == answer.Ok? && (ok ==> answer.value == (c.Tables(), list))
    ensures StartsKept(old(c.stallInspector.uncachedTensorTable), c.stallInspector.uncachedTensorTable, now)
  {
    ViewFits(c, Sorting(w.ranks[0], sorted[0]));
    WatchingApart(w, sorted, all, limit, watching, false);
    hide Coordinate, Tally, Concat;
    list, ok := c.CoordinateAll(sents, all, limit, now, w, sorted);
  }

  method CoordinateFirst(cs: seq<Controller>, sents: seq<seq<Request>>, all: Report, limit: int, now: int,
      ghost setup: Setup,
      ghost w: World, ghost v: World, ghost sorted: seq<Sorted>)
    returns (list: seq<Response>, ghost u: World, ghost filed: Setup)
    requires Apart(cs) && AllAt(cs, v, setup) && AllSorted(w, v, sents, sorted) && |cs| == |w.ranks|
    requires sents == AllSent(sorted) && AllInRange(w, sents)
      && Coordinate(w, sorted, all, Config(limit, setup.watching)).Ok?
    modifies cs[0], cs[0].stallInspector
    ensures
      var answer := Coordinate(w, sorted, all, Config(limit, setup.watching)).value;
      answer == (u.coord, list) && u.ranks == v.ranks && AllAt(cs, u, filed) && Filed(setup, filed, now)
  {
    hide At, Coordinate, AllInRange, Controller.Tables, Sorting;
    var ok;
    list, ok := CoordinateKeeping(cs[0], sents, all, limit, now, setup.watching, w, sorted);
    u := World(v.ranks, cs[0].Tables());
    filed := setup.(stamps := setup.stamps[0 := Stamp(cs[0].stallInspector)]);
  }

  lemma {:induction false} SentsAre(w: World, v: World, sents: seq<seq<Request>>, sorted: seq<Sorted>)
    requires AllSorted(w, v, sents, sorted)
    ensures sents == AllSent(sorted)
  {
  }

  /** With news: the coordinator files the messages of all ranks and answers what has become ready. */
  method AskCoordinator(cs: seq<Controller>, sents: seq<seq<Request>>, all: Report, limit: int, now: int,
      ghost setup: Setup,
      ghost w: World, ghost v: World, ghost sorted: seq<Sorted>, ghost reports: seq<Report>)
    returns (list: seq<Response>, ghost u: World, ghost filed: Setup)
    requires Apart(cs) && AllAt(cs, v, setup) && AllSorted(w, v, sents, sorted) && |cs| == |w.ranks|
    requires Round(w, reports, all, sorted) && AllIdle(w)
    modifies Parts(cs)
    ensures
      var answer := Coordinate(w, sorted, all, Config(limit, setup.watching));
      && answer.Ok? && answer.value == (u.coord, list) && u.ranks == v.ranks && AllAt(cs, u, filed)
        && Filed(setup, filed, now)
  {
    hide Round, AllIdle, Coordinate, SlowOutcome, SlowDone, AllAt, AllSorted, InRange;
    SlowParts(w, Config(limit, setup.watching), reports, all, sorted);
    ReadyComplete(w, reports, all, sorted);
    SentsAre(w, v, sents, sorted);
    PartOf(cs, 0);
    hide *;
    list, u, filed := CoordinateFirst(cs, sents, all, limit, now, setup, w, v, sorted);
  }

  /** With news: every rank does what the coordinator says. */
  method FollowCoordinator(cs: seq<Controller>, sents: seq<seq<Request>>, all: Report, limit: int, now: int,
      ghost setup: Setup,
      ghost w: World, ghost v: World, ghost sorted: seq<Sorted>, ghost reports: seq<Report>)
    returns (lists: seq<ResponseList>, ghost filed: Setup)
    requires Apart(cs) && AllAt(cs, v, setup) && AllSorted(w, v, sents, sorted) && |cs| == |w.ranks|
    requires Round(w, reports, all, sorted) && AllIdle(w)
    modifies Parts(cs)
    ensures
      var o := SlowOutcome(w, sorted, all, Config(limit, setup.watching));
      o.Ok? && lists == o.value.lists && AllAt(cs, Idle(o.value.world), filed) && Filed(setup, filed, now)
  {
    SlowParts(w, Config(limit, setup.watching), reports, all, sorted);
    hide Round, AllIdle, Coordinate, AllAt, Parts, SlowOutcome, SlowDone, Idle;
    var list;
    ghost var u;
    list, u, filed := AskCoordinator(cs, sents, all, limit, now, setup, w, v, sorted, reports);
    lists := ToldAll(cs, list, all.shutdown, filed, w, sorted, u.coord, all, u,
      SlowOutcome(w, sorted, all, Config(limit, setup.watching)).value);
  }

  function StagesOutcome(w: World, sorted: seq<Sorted>, all: Report, cfg: Config): Result<Outcome>
    requires w.ranks != [] && |sorted| == |w.ranks|
  {
    if TakesFastPath(w.ranks[0], all) then FastOutcome(w, sorted, all, cfg) else SlowOutcome(w, sorted, all, cfg)
  }

  /** The branch between answers from the cache and a round with the coordinator. */
  method Conclude(cs: seq<Controller>, sents: seq<seq<Request>>, all: Report, limit: int, now: int,
      ghost setup: Setup,
      ghost w: World, ghost v: World, ghost sorted: seq<Sorted>, ghost reports: seq<Report>)
    returns (lists: seq<ResponseList>, ghost filed: Setup)
    requires Apart(cs) && AllAt(cs, v, setup) && AllSorted(w, v, sents, sorted) && |cs| == |w.ranks|
    requires Round(w, reports, all, sorted) && AllIdle(w)
    modifies Parts(cs)
    ensures |sorted| == |w.ranks| > 0
    ensures
      var o := StagesOutcome(w, sorted, all, Config(limit, setup.watching));
      o.Ok? && lists == o.value.lists && AllAt(cs, Idle(o.value.world), filed) && Filed(setup, filed, now)
  {
    FirstCapacity(cs, w, v, sents, sorted, setup, reports, all);
    SizesAgree(cs, v, setup);
    FiledNone(setup, now);
    hide Filed, StagesOutcome, Round, AllIdle, FastOutcome, SlowOutcome, AllAt, Parts, Idle, AllSorted, Apart;
    if cs[0].responseCache.capacity > 0 && !all.uncached {
      filed := setup;
      lists := AnswerAlone(cs, all, limit, setup, w, v, sents, sorted, reports);
    } else {
      lists, filed := FollowCoordinator(cs, sents, all, limit, now, setup, w, v, sorted, reports);
    }
  }

  lemma {:induction false} FirstCapacity(cs: seq<Controller>, w: World, v: World, sents: seq<seq<Request>>,
      sorted: seq<Sorted>,
      setup: Setup, reports: seq<Report>, all: Report)
    requires AllAt(cs, v, setup) && AllSorted(w, v, sents, sorted) && Round(w, reports, all, sorted)
    ensures |sorted| == |w.ranks| > 0 && (cs[0].responseCache.capacity > 0 <==> w.ranks[0].cache.capacity > 0)
  {
    ViewFits(cs[0], v.ranks[0]);
    StoreSorted(w, reports, all, sorted, 0);
  }

  lemma {:induction false} StagesAre(w: World, inputs: seq<Input>, cfg: Config)
    returns (prepared: seq<(Report, set<string>)>, all: Report, sorted: seq<Sorted>)
    requires Inv(w) && |inputs| == |w.ranks| && AllOk(PrepareAll(w, inputs, cfg)).Ok?
    ensures AllOk(PrepareAll(w, inputs, cfg)) == Ok(prepared) && Reports(prepared) != []
    ensures all == Combine(Reports(prepared)) && AllOk(SortAll(w, prepared, all, cfg)) == Ok(sorted)
    ensures Round(w, Reports(prepared), all, sorted) && |sorted| == |w.ranks| > 0
    ensures Negotiate(w, inputs, cfg) == StagesOutcome(w, sorted, all, cfg)
  {
    PreparesIff(w, inputs, cfg);
    assert w.ranks != [];
    hide Inv, Negotiate, FastOutcome, SlowOutcome, PrepareAll, SortAll, AllOk;
    prepared, all, sorted := CycleStages(w, inputs, cfg);
  }

  /** Since when each rank's cached tensors are pending. */
  ghost predicate AllBegin(cs: seq<Controller>, started: seq<map<string, int>>)
    reads Parts(cs)
  {
    |started| == |cs| && forall i :: 0 <= i < |cs| ==>
      cs[i] in cs && cs[i].stallInspector.cachedTensorTable == started[i]
  }

  lemma {:induction false} AllStarted(cs: seq<Controller>, w: World, setup: Setup)
    requires AllAt(cs, w, setup)
    ensures |setup.started| == |cs| && forall i :: 0 <= i < |cs| ==>
      TimesKept(setup.started[i], cs[i].stallInspector.cachedTensorTable, setup.now)
  {
  }

  lemma {:induction false} AwaitingAll(cs: seq<Controller>, w: World, down: seq<bool>, now: int, inputs: seq<Input>,
      started: seq<map<string, int>>)
    requires Inv(w) && AllBegin(cs, started) && |cs| == |w.ranks| == |down| && inputs == Inputs(cs, |cs|, w, down, now)
    ensures Awaiting(cs, 0, w, down, now, inputs, started)
  {
    forall i | 0 <= i < |cs| ensures cs[i] in cs && Begins(cs[i], i, w, started) {
      assert RankInv(w.ranks[i], i, w.coord, |w.ranks|);
    }
  }

  /** One cycle on all ranks does to the controllers what the specification says.  `inputs` is what the surroundings
      contribute: the shutdown flags, and what the stall inspectors find at this time.  `ccs` are records of bits made
      for this cycle. */
  method ComputeResponseLists(cs: seq<Controller>, ccs: seq<CacheCoordinator>, down: seq<bool>, now: int, limit: int,
      bits: nat,
      timeline: bool, ghost setup: Setup, ghost w: World)
    returns (lists: seq<ResponseList>, ok: bool, ghost inputs: seq<Input>, ghost after: Setup)
    requires Apart(cs) && AllAt(cs, w, setup) && Inv(w) && |down| == |cs| == |ccs| == |w.ranks| > 0
    requires Different(ccs) && AllBlank(ccs, bits) && |w.ranks[0].cache.slots| == bits
    requires setup.now == now && AllBegin(cs, setup.started)
    modifies Parts(cs), ccs
    ensures inputs == old(Inputs(cs, |cs|, w, down, now))
    ensures
      var o := Negotiate(w, inputs, Config(limit, setup.watching));
      ok == o.Ok? && (ok ==> lists == o.value.lists && AllAt(cs, Idle(o.value.world), after))
    ensures ok ==> |after.stamps| == |setup.stamps| == |cs| && forall i :: 0 <= i < |cs| ==>
      && Carried(setup.stamps[i], after.stamps[i], now)
      && (i > 0 ==> after.stamps[i].uncached == setup.stamps[i].uncached)
      && TimesKept(setup.started[i], cs[i].stallInspector.cachedTensorTable, now)
  {
    ghost var cfg := Config(limit, setup.watching);
    AtIdle(cs, w, setup);
    forall i | 0 <= i < |cs| ensures |w.ranks[i].cache.slots| == bits { SameSlots(w, i); }
    AwaitingAll(cs, w, down, now, Inputs(cs, |cs|, w, down, now), setup.started);
    inputs := Inputs(cs, |cs|, w, down, now);
    hide *;
    lists, after := [], setup;
    var queues;
    ghost var u;
    queues, ok, u := AgreeOnBits(cs, ccs, down, now, limit, bits, timeline, setup, w, inputs);
    if ok {
      ghost var prepared, all, sorted := StagesAre(w, inputs, cfg);
      lists, after := GoOn(cs, ccs, queues, now, limit, AllChecked(setup, now), w, u, prepared, all, sorted);
      ConcludesOk(w, inputs, cfg, sorted, all);
      AllCarried(setup, after, now);
      AllStarted(cs, Idle(Negotiate(w, inputs, cfg).value.world), after);
    } else {
      CycleFaults(w, inputs, cfg);
    }
  }

  lemma {:induction false} FiledNone(setup: Setup, now: int)
    requires |setup.stamps| > 0
    ensures Filed(setup, setup, now)
  {
  }

  lemma {:induction false} AllCarried(before: Setup, after: Setup, now: int)
    requires Filed(AllChecked(before, now), after, now)
    ensures |after.stamps| == |before.stamps|
    ensures forall i :: 0 <= i < |before.stamps| ==>
      && Carried(before.stamps[i], after.stamps[i], now)
      && (i > 0 ==> after.stamps[i].uncached == before.stamps[i].uncached)
  {
  }

  lemma {:induction false} ConcludesOk(w: World, inputs: seq<Input>, cfg: Config, sorted: seq<Sorted>, all: Report)
    requires w.ranks != [] && |inputs| == |w.ranks| == |sorted|
    requires Negotiate(w, inputs, cfg) == StagesOutcome(w, sorted, all, cfg) && StagesOutcome(w, sorted, all, cfg).Ok?
    ensures Negotiate(w, inputs, cfg).Ok?
  {
  }

  /** The rest of a cycle, once the bits are agreed on. */
  method GoOn(cs: seq<Controller>, ccs: seq<CacheCoordinator>, queues: seq<seq<Request>>, now: int, limit: int,
      ghost setup: Setup, ghost w: World, ghost u: World, ghost prepared: seq<(Report, set<string>)>,
        ghost all: Report,
      ghost sorted: seq<Sorted>)
    returns (lists: seq<ResponseList>, ghost filed: Setup)
    requires Apart(cs) && AllAt(cs, u, setup) && AllPublished(w, u, queues, prepared)
      && |cs| == |ccs| == |w.ranks| > 0
    requires forall i :: 0 <= i < |ccs| ==> ccs[i].View() == all
    requires AllOk(SortAll(w, prepared, all, Config(limit, setup.watching))) == Ok(sorted)
    requires Round(w, Reports(prepared), all, sorted) && AllIdle(w)
    modifies Parts(cs)
    ensures |sorted| == |w.ranks|
    ensures
      var o := StagesOutcome(w, sorted, all, Config(limit, setup.watching));
      o.Ok? && lists == o.value.lists && AllAt(cs, Idle(o.value.world), filed) && Filed(setup, filed, now)
  {
    hide Round, AllIdle, AllAt, AllPublished, Apart, Parts, StagesOutcome, SortAll, AllOk, Idle, AllSorted, Reports;
    var mine := Report(ccs[0].cacheHits, ccs[0].invalidBits, ccs[0].uncachedInQueue, ccs[0].shouldShutDown);
    assert mine == all;
    var sents;
    ghost var v;
    sents, v := SortMessages(cs, ccs, queues, limit, setup, w, u, prepared, all, sorted);
    lists, filed := Conclude(cs, sents, mine, limit, now, setup, w, v, sorted, Reports(prepared));
  }

  lemma {:induction false} CycleFaults(w: World, inputs: seq<Input>, cfg: Config)
    requires w.ranks != [] && |inputs| == |w.ranks| && AllOk(PrepareAll(w, inputs, cfg)).Err?
    ensures Negotiate(w, inputs, cfg).Err?
  {
    hide PrepareAll;
  }
}
