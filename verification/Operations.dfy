/**
  The cache compares devices, types and shapes, but not operations.  So what is performed is what
  was asked for as long as every tensor name keeps its operation, and that proviso is needed.
 */
module Operations {
  import opened Messages
  import opened Sequences
  import opened CacheModel
  import opened Fusion
  import opened Negotiation
  import opened Invariants
  import opened CycleProofs
  import opened RoundProofs
  import opened TallyProofs
  import opened SlowProofs
  import opened PutProofs
  import opened AnswerProofs
  import opened Validation
  import opened ValidationProofs
  import opened ServedProofs
  import opened CycleTheorem

  type Plan = string -> Operation

  ghost predicate Planned(ms: seq<Request>, f: Plan) {
    forall m :: m in ms ==> m.op == f(m.name)
  }

  ghost predicate PlannedStore(c: Cache, f: Plan) {
    forall n :: n in c.store ==> c.store[n].response.kind == Perform(f(n))
  }

  /** All requests and all cached responses follow the plan. */
  ghost predicate Steady(w: World, f: Plan) {
    && (forall i :: 0 <= i < |w.ranks| ==> Planned(w.ranks[i].queue, f) && PlannedStore(w.ranks[i].cache, f))
    && (forall n :: n in w.coord.messages ==> Planned(w.coord.messages[n], f))
  }

  /** A response, fused or not, performs the planned operation on each of its tensors, or reports an error. */
  ghost predicate AsPlanned(g: Response, f: Plan) {
    g.kind.Perform? ==> forall n :: n in g.names ==> g.kind.op == f(n)
  }

  ghost predicate AllPlanned(rs: seq<Response>, f: Plan) {
    forall r :: r in rs ==> AsPlanned(r, f)
  }

  lemma {:induction false} PutAllPlanned(c: Cache, rs: seq<Response>, t: Table, f: Plan)
    requires PlannedStore(c, f) && AllPlanned(rs, f) && Singles(rs) && (forall r :: r in rs ==> Reduces(r.kind))
    requires PutAll(c, rs, t).Ok?
    ensures PlannedStore(PutAll(c, rs, t).value, f)
  {
    if rs != [] {
      var front, r := rs[..|rs| - 1], rs[|rs| - 1];
      assert forall x :: x in front ==> x in rs;
      PutAllPlanned(c, front, t, f);
      assert r in rs && AsPlanned(r, f) && NameOf(r) in r.names;
    }
  }

  lemma {:induction false} EraseAllPlanned(c: Cache, bits: seq<nat>, f: Plan)
    requires PlannedStore(c, f) && EraseAll(c, bits).Ok?
    ensures PlannedStore(EraseAll(c, bits).value, f)
    decreases |bits|
  {
    if bits != [] { EraseAllPlanned(Erase(c, bits[0]), bits[1..], f); }
  }

  lemma {:induction false} SortedPlanned(r: Rank, watched: set<string>, all: Report, cfg: Config, f: Plan)
    requires PlannedStore(r.cache, f) && SortOut(r, watched, all, cfg).Ok?
    ensures PlannedStore(SortOut(r, watched, all, cfg).value.cache, f)
  {
    if r.cache.capacity > 0 { EraseAllPlanned(r.cache, Ascending(all.invalid, |r.cache.slots|), f); }
  }

  lemma {:induction false} FiledPlanned(w: World, reports: seq<Report>, all: Report, sorted: seq<Sorted>, f: Plan,
      n: string)
    requires Round(w, reports, all, sorted) && Steady(w, f)
    ensures Planned(Filed(w, sorted, n), f)
  {
    forall m | m in Filed(w, sorted, n) ensures m.op == f(m.name) {
      FiledMembers(w, reports, all, sorted, n, m);
      if m !in RequestsFor(w.coord, n) {
        assert Split(w.ranks[m.rank], all, sorted[m.rank]);
        assert m in w.ranks[m.rank].queue;
      }
    }
  }

  lemma {:induction false} ConstructPlanned(n: string, ms: seq<Request>, f: Plan)
    requires Complete(ms) && Planned(ms, f) && forall m :: m in ms ==> m.name == n
    ensures AsPlanned(Construct(n, ms), f)
  {
    hide Construct;
    ConstructMeaning(n, ms);
    assert ms[0] in ms;
  }

  lemma {:induction false} BuiltPlanned(w: World, reports: seq<Report>, all: Report, sorted: seq<Sorted>, f: Plan,
      n: string)
    requires Round(w, reports, all, sorted) && AllIdle(w) && Steady(w, f)
    requires n !in sorted[0].cache.bits && Everywhere(w, n)
    ensures Filed(w, sorted, n) != [] && AsPlanned(Construct(n, Filed(w, sorted, n)), f)
  {
    var ms := Filed(w, sorted, n);
    BuiltComplete(w, reports, all, sorted, n);
    FiledPlanned(w, reports, all, sorted, f, n);
    forall m | m in ms ensures m.name == n { FiledMembers(w, reports, all, sorted, n, m); }
    hide Round, Steady, Everywhere, AllIdle, Filed, Construct, AsPlanned, Planned;
    ConstructPlanned(n, ms, f);
  }

  /** What is in the cache and what the coordinator builds follows the plan. */
  lemma {:induction false} SourcePlanned(w: World, reports: seq<Report>, all: Report, sorted: seq<Sorted>, f: Plan,
      r: Response)
    requires Round(w, reports, all, sorted) && AllIdle(w) && Steady(w, f) && PlannedStore(sorted[0].cache, f)
    requires Sourced(w, all, sorted, r)
    ensures AsPlanned(r, f)
  {
    assert |sorted| == |w.ranks| > 0;
    hide Round, Steady, Everywhere, AllIdle, Filed, Construct;
    if !FromCache(sorted[0].cache, all, r) { BuiltPlanned(w, reports, all, sorted, f, NameOf(r)); }
  }

  /** Fusion does not mix operations. */
  lemma {:induction false} FusedPlanned(rs: seq<Response>, t: Table, limit: int, f: Plan)
    requires Known(rs, t) && Singles(rs) && AllPlanned(rs, f)
    ensures AllPlanned(Fuse(rs, t, limit), f)
  {
    var groups, list := Groups(rs, t, limit), Fuse(rs, t, limit);
    GroupsNonEmpty(rs, t, limit);
    GroupsLawful(rs, t, limit);
    forall g | g in list ensures AsPlanned(g, f) {
      var k :| 0 <= k < |list| && list[k] == g;
      GroupMembers(rs, t, limit, k);
      GroupPlanned(rs, groups[k], t, limit, f);
    }
  }

  lemma {:induction false} GroupPlanned(rs: seq<Response>, group: seq<Response>, t: Table, limit: int, f: Plan)
    requires Singles(rs) && AllPlanned(rs, f) && Lawful(group, t, limit) && forall m :: m in group ==> m in rs
    ensures AsPlanned(Merge(group), f)
  {
    MergeDevices(group);
    forall j | 0 <= j < |group|
      ensures group[j].names == [NameOf(group[j])] && AsPlanned(group[j], f) && group[j].kind == group[0].kind
    {
      assert group[j] in rs && Compatible(group[0], group[j], t);
    }
    MergeNames(group);
    SingleNames(group);
    forall n | n in Merge(group).names && group[0].kind.Perform? ensures group[0].kind.op == f(n) {
      var j :| 0 <= j < |group| && AllNames(group)[j] == n;
      assert n in group[j].names;
    }
  }

  // ---------------------------------------------------------------------
  // Cycles keep to the plan
  // ---------------------------------------------------------------------

  ghost predicate SteadySorted(sorted: seq<Sorted>, f: Plan) {
    forall i :: 0 <= i < |sorted| ==> PlannedStore(sorted[i].cache, f)
  }

  lemma {:induction false} SlowStore(w: World, cfg: Config, sorted: seq<Sorted>, rs: seq<Response>,
      list: seq<Response>, i: nat, f: Plan)
    requires w.ranks != [] && |sorted| == |w.ranks| && i < |w.ranks| && Joint(w, sorted, cfg, rs, list)
    requires AllPlanned(rs, f) && PlannedStore(sorted[i].cache, f)
      && FinishSlow(w.ranks[i], sorted[i], list, |w.ranks|).Ok?
    ensures PlannedStore(FinishSlow(w.ranks[i], sorted[i], list, |w.ranks|).value.cache, f)
  {
    var c, size := sorted[i].cache, |w.ranks|;
    SlowRefreshes(w.ranks[i], sorted[i], list, size);
    if c.capacity > 0 {
      var puts := ToCache(list, size);
      PutsReady(w, sorted, cfg, rs, list, i);
      forall x | x in rs && Reduces(x.kind) ensures x.sizes == [] { assert Usable(w, sorted, x, 0); }
      forall r | r in puts
        ensures AsPlanned(r, f) && Reduces(r.kind)
      {
        ToCacheFused(rs, w.ranks[0].table, cfg.limit, size, r);
      }
      PutAllPlanned(c, puts, w.ranks[i].table, f);
    }
  }

  lemma {:induction false} MessagesPlanned(w: World, reports: seq<Report>, all: Report, sorted: seq<Sorted>,
      k: Coordinator, f: Plan)
    requires Round(w, reports, all, sorted) && Steady(w, f) && Settles(w, sorted, k)
    ensures forall n :: n in k.messages ==> Planned(k.messages[n], f)
  {
    forall n | n in k.messages ensures Planned(k.messages[n], f) {
      assert RequestsFor(k, n) == (if Everywhere(w, n) then [] else Filed(w, sorted, n));
      FiledPlanned(w, reports, all, sorted, f, n);
    }
  }

  lemma {:induction false} KeptPlanned(w: World, reports: seq<Report>, all: Report, sorted: seq<Sorted>, f: Plan,
      i: nat)
    requires Round(w, reports, all, sorted) && Steady(w, f) && i < |w.ranks|
    ensures Planned(sorted[i].kept, f)
  {
    assert Split(w.ranks[i], all, sorted[i]);
    assert forall m :: m in sorted[i].kept ==> m in w.ranks[i].queue;
  }

  lemma {:induction false} AllSourcesPlanned(w: World, cfg: Config, reports: seq<Report>, all: Report,
      sorted: seq<Sorted>,
      f: Plan, rs: seq<Response>)
    requires Round(w, reports, all, sorted) && AllIdle(w) && Steady(w, f) && SteadySorted(sorted, f)
    requires Answers(w, sorted, rs) && forall r :: r in rs ==> Sourced(w, all, sorted, r)
    ensures AllPlanned(rs, f) && Known(rs, w.ranks[0].table) && AllPlanned(Fuse(rs, w.ranks[0].table, cfg.limit), f)
  {
    forall r | r in rs ensures AsPlanned(r, f) { SourcePlanned(w, reports, all, sorted, f, r); }
    AnswersKnown(w, sorted, rs, 0);
    FusedPlanned(rs, w.ranks[0].table, cfg.limit, f);
  }

  /** What a rank is left with after a cycle with communication. */
  lemma {:induction false} SlowRankSteady(w: World, cfg: Config, reports: seq<Report>, all: Report, sorted: seq<Sorted>,
      f: Plan, rs: seq<Response>, list: seq<Response>, i: nat)
    requires Round(w, reports, all, sorted) && Steady(w, f) && SteadySorted(sorted, f) && i < |w.ranks|
    requires Joint(w, sorted, cfg, rs, list) && AllPlanned(rs, f)
    ensures
      var done := FinishSlow(w.ranks[i], sorted[i], list, |w.ranks|);
      done.Ok? && Planned(done.value.queue, f) && PlannedStore(done.value.cache, f)
  {
    KeptPlanned(w, reports, all, sorted, f, i);
    SlowRank(w, cfg, reports, all, sorted, rs, list, i);
    assert |sorted| == |w.ranks|;
    hide Round, Steady, FinishSlow, Joint, AllPlanned;
    assert PlannedStore(sorted[i].cache, f);
    SlowStore(w, cfg, sorted, rs, list, i, f);
  }

  lemma {:induction false} DoneSteady(w: World, k: Coordinator, list: seq<Response>, o: Outcome, f: Plan)
    requires o.world.coord == k && |o.world.ranks| == |o.lists| == |w.ranks| && AllPlanned(list, f)
    requires forall n :: n in k.messages ==> Planned(k.messages[n], f)
    requires forall i :: 0 <= i < |w.ranks| ==>
      Planned(o.world.ranks[i].queue, f) && PlannedStore(o.world.ranks[i].cache, f)
    requires forall i :: 0 <= i < |w.ranks| ==> o.lists[i].responses == list
    ensures Steady(o.world, f) && forall l :: l in o.lists ==> AllPlanned(l.responses, f)
  {
  }

  lemma {:induction false} SlowSteady(w: World, cfg: Config, reports: seq<Report>, all: Report, sorted: seq<Sorted>,
      f: Plan)
    requires Round(w, reports, all, sorted) && AllIdle(w) && Steady(w, f) && SteadySorted(sorted, f)
    ensures
      var o := SlowOutcome(w, sorted, all, cfg);
      o.Ok? && Steady(o.value.world, f) && forall l :: l in o.value.lists ==> AllPlanned(l.responses, f)
  {
    var rs := SlowCoordinates(w, cfg, reports, all, sorted);
    AllSourcesPlanned(w, cfg, reports, all, sorted, f, rs);
    var answer := Coordinate(w, sorted, all, cfg).value;
    MessagesPlanned(w, reports, all, sorted, answer.0, f);
    assert |sorted| == |w.ranks| > 0;
    forall i | 0 <= i < |w.ranks|
      ensures
        var done := FinishSlow(w.ranks[i], sorted[i], answer.1, |w.ranks|);
        done.Ok? && Planned(done.value.queue, f) && PlannedStore(done.value.cache, f)
    {
      SlowRankSteady(w, cfg, reports, all, sorted, f, rs, answer.1, i);
    }
    hide Round, AllIdle, Steady, SteadySorted, Coordinate, FinishSlow, Joint, Planned, PlannedStore, AllPlanned,
      SlowOutcome;
    SlowOutcomeDone(w, sorted, all, cfg);
    DoneSteady(w, answer.0, answer.1, SlowOutcome(w, sorted, all, cfg).value, f);
  }

  lemma {:induction false} FastStore(r: Rank, s: Sorted, all: Report, cfg: Config, f: Plan)
    requires Valid(s.cache) && PlannedStore(s.cache, f) && FinishFast(r, s, all, cfg).Ok?
    ensures PlannedStore(FinishFast(r, s, all, cfg).value.0.cache, f)
      && FinishFast(r, s, all, cfg).value.0.queue == s.kept
  {
    if all.hits != {} { GetAllPeeks(s.cache, HitList(all, s.cache)); }
  }

  /** The responses of a cycle answered from the cache, before fusion. */
  lemma {:induction false} FastSources(w: World, cfg: Config, reports: seq<Report>, all: Report, sorted: seq<Sorted>)
    returns (rs: seq<Response>)
    requires Round(w, reports, all, sorted) && AllIdle(w) && TakesFastPath(w.ranks[0], all)
    ensures PeekAll(sorted[0].cache, HitList(all, sorted[0].cache)) == Ok(rs)
    ensures Answers(w, sorted, rs) && forall r :: r in rs ==> Sourced(w, all, sorted, r)
    ensures Known(rs, w.ranks[0].table) && FastList(w, sorted, all, cfg, rs) == Fuse(rs, w.ranks[0].table, cfg.limit)
  {
    PeekedHits(w, reports, all, sorted);
    rs := PeekAll(sorted[0].cache, HitList(all, sorted[0].cache)).value;
    FastAnswers(w, reports, all, sorted, Ok(rs));
    AnswersKnown(w, sorted, rs, 0);
    if all.hits == {} {
      assert AllNames(rs) == [] by { SomeMember(AllNames(rs)); }
      SingleNames(rs);
      FuseNothing(w.ranks[0].table, cfg.limit);
    }
  }

  lemma {:induction false} FuseNothing(t: Table, limit: int)
    ensures Known([], t) && Fuse([], t, limit) == []
  {
  }

  lemma {:induction false} FastRankSteady(w: World, cfg: Config, reports: seq<Report>, all: Report, sorted: seq<Sorted>,
      f: Plan, rs: seq<Response>, i: nat)
    requires Round(w, reports, all, sorted) && AllIdle(w) && Steady(w, f) && SteadySorted(sorted, f)
    requires TakesFastPath(w.ranks[0], all) && i < |w.ranks|
    requires PeekAll(sorted[0].cache, HitList(all, sorted[0].cache)) == Ok(rs)
    ensures
      var done := FinishFast(w.ranks[i], sorted[i], all, cfg);
      && done.Ok? && Planned(done.value.0.queue, f) && PlannedStore(done.value.0.cache, f)
      && done.value.1.responses == FastList(w, sorted, all, cfg, rs)
  {
    KeptPlanned(w, reports, all, sorted, f, i);
    StoreSorted(w, reports, all, sorted, i);
    FastRank(w, cfg, reports, all, sorted, rs, i);
    hide Round, Steady, AllIdle, FinishFast, FastList, PeekAll, StoreInv;
    assert PlannedStore(sorted[i].cache, f);
    FastStore(w.ranks[i], sorted[i], all, cfg, f);
  }

  lemma {:induction false} FastSteady(w: World, cfg: Config, reports: seq<Report>, all: Report, sorted: seq<Sorted>,
      f: Plan)
    requires Round(w, reports, all, sorted) && AllIdle(w) && Steady(w, f) && SteadySorted(sorted, f)
    requires TakesFastPath(w.ranks[0], all)
    ensures
      var o := FastOutcome(w, sorted, all, cfg);
      o.Ok? && Steady(o.value.world, f) && forall l :: l in o.value.lists ==> AllPlanned(l.responses, f)
  {
    var rs := FastSources(w, cfg, reports, all, sorted);
    AllSourcesPlanned(w, cfg, reports, all, sorted, f, rs);
    assert |sorted| == |w.ranks| > 0;
    assert forall n :: n in w.coord.messages ==> Planned(w.coord.messages[n], f);
    var list := FastList(w, sorted, all, cfg, rs);
    forall i | 0 <= i < |w.ranks|
      ensures
        var done := FinishFast(w.ranks[i], sorted[i], all, cfg);
        && done.Ok? && Planned(done.value.0.queue, f) && PlannedStore(done.value.0.cache, f)
        && done.value.1.responses == list
    {
      FastRankSteady(w, cfg, reports, all, sorted, f, rs, i);
    }
    hide Round, AllIdle, Steady, SteadySorted, FinishFast, FastList, Planned, PlannedStore, AllPlanned, FastOutcome;
    FastOutcomeDone(w, sorted, all, cfg);
    DoneSteady(w, w.coord, list, FastOutcome(w, sorted, all, cfg).value, f);
  }

  /** As long as names keep their operations, every response performs what was asked for. */
  lemma {:induction false} CycleAsPlanned(w: World, inputs: seq<Input>, cfg: Config, f: Plan)
    requires Inv(w) && AllIdle(w) && |inputs| == |w.ranks| && Steady(w, f)
    ensures Negotiate(w, inputs, cfg).Ok? ==>
      var o := Negotiate(w, inputs, cfg).value;
      Steady(o.world, f) && forall l :: l in o.lists ==> AllPlanned(l.responses, f)
  {
    CycleServes(w, inputs, cfg);
    if Negotiate(w, inputs, cfg).Ok? {
      var prepared, all, sorted := CycleStages(w, inputs, cfg);
      forall i | 0 <= i < |sorted| ensures PlannedStore(sorted[i].cache, f) {
        assert SortAll(w, prepared, all, cfg)[i].Ok?;
        SortedPlanned(w.ranks[i], prepared[i].1, all, cfg, f);
      }
      if TakesFastPath(w.ranks[0], all) {
        FastSteady(w, cfg, Reports(prepared), all, sorted, f);
      } else {
        SlowSteady(w, cfg, Reports(prepared), all, sorted, f);
      }
    }
  }

  // ---------------------------------------------------------------------
  // Exactly when the operation asked for is the one performed
  // ---------------------------------------------------------------------

  /** A rank gives the cached entry of `n` up: it found it stalled, or has a request for another tensor of that name. */
  ghost predicate GivesUp(r: Rank, input: Input, cfg: Config, n: string) {
    n in Stalled(r, input, cfg) || exists m :: m in r.queue && m.name == n && StateOf(m, r.cache) == Invalid
  }

  /** The entry of `n` is cached and no rank gives it up, so the cycle answers `n` from the cache. */
  ghost predicate StaysCached(w: World, inputs: seq<Input>, cfg: Config, n: string)
    requires |inputs| == |w.ranks|
  {
    && w.ranks != [] && n in w.ranks[0].cache.bits
    && forall i :: 0 <= i < |w.ranks| ==> !GivesUp(w.ranks[i], inputs[i], cfg, n)
  }

  /** The request is outstanding, at its rank or at the coordinator. */
  ghost predicate Outstanding(w: World, m: Request) {
    m in RequestsFor(w.coord, m.name) || exists i :: 0 <= i < |w.ranks| && m in w.ranks[i].queue
  }

  /** The response performs the operation that was asked for, unless it reports an error. */
  predicate Honours(g: Response, m: Request) {
    g.kind.Perform? ==> g.kind.op == m.op
  }

  lemma {:induction false} InvalidOf(r: Rank, input: Input, cfg: Config, isCoordinator: bool, n: string)
    requires Valid(r.cache) && n in r.cache.bits && Prepare(r, input, cfg, isCoordinator).Ok?
    ensures r.cache.bits[n] in Prepare(r, input, cfg, isCoordinator).value.0.invalid <==> GivesUp(r, input, cfg, n)
  {
    var b := r.cache.bits[n];
    assert r.cache.capacity > 0 by { assert n in r.cache.order; }
    assert forall k :: k in r.cache.bits && r.cache.bits[k] == b ==> k == n by {
      forall k | k in r.cache.bits && r.cache.bits[k] == b ensures k == n { HitSlot(r.cache, b, k, n); }
    }
    hide Valid;
    if m :| m in r.queue && m.name == n && StateOf(m, r.cache) == Invalid {
      assert b in BitsIn(r.queue, r.cache, Invalid);
    }
  }

  lemma {:induction false} GivenUpAt(w: World, inputs: seq<Input>, cfg: Config, prepared: seq<(Report, set<string>)>,
      i: nat, n: string)
    requires Inv(w) && |inputs| == |w.ranks| && AllOk(PrepareAll(w, inputs, cfg)) == Ok(prepared) && i < |w.ranks|
    requires n in w.ranks[0].cache.bits
    ensures w.ranks[0].cache.bits[n] in prepared[i].0.invalid <==> GivesUp(w.ranks[i], inputs[i], cfg, n)
  {
    SameBits(w, i);
    assert Valid(w.ranks[i].cache) by { assert RankInv(w.ranks[i], i, w.coord, |w.ranks|); }
    hide Inv, Valid, GivesUp;
    assert PrepareAll(w, inputs, cfg)[i].Ok?;
    InvalidOf(w.ranks[i], inputs[i], cfg, i == 0, n);
  }

  lemma {:induction false} SurvivorKept(c: Cache, d: Cache, invalid: set<nat>, n: string)
    requires Valid(c) && Survives(c, d, Ascending(invalid, |c.slots|))
    ensures n in d.bits <==> n in c.bits && c.bits[n] !in invalid
    ensures n in d.bits ==> n in c.store && n in d.store && d.store[n] == c.store[n]
  {
  }

  lemma {:induction false} InvalidSomewhere(reports: seq<Report>, b: nat)
    requires reports != []
    ensures b in Combine(reports).invalid <==> exists i :: 0 <= i < |reports| && b in reports[i].invalid
  {
  }

  lemma {:induction false} GivenUpSomewhere(w: World, inputs: seq<Input>, cfg: Config, prepared: seq<(Report,
      set<string>)>, n: string)
    requires Inv(w) && |inputs| == |w.ranks| && AllOk(PrepareAll(w, inputs, cfg)) == Ok(prepared)
      && Reports(prepared) != []
    requires n in w.ranks[0].cache.bits
    ensures w.ranks[0].cache.bits[n] !in Combine(Reports(prepared)).invalid <==> StaysCached(w, inputs, cfg, n)
  {
    var b := w.ranks[0].cache.bits[n];
    assert |prepared| == |w.ranks|;
    forall i | 0 <= i < |w.ranks|
      ensures b in Reports(prepared)[i].invalid <==> GivesUp(w.ranks[i], inputs[i], cfg, n)
    {
      GivenUpAt(w, inputs, cfg, prepared, i, n);
    }
    InvalidSomewhere(Reports(prepared), b);
    hide Inv, GivesUp, PrepareAll, AllOk, Combine;
  }

  /** A name stays cached exactly when it is cached after the erasures. */
  lemma {:induction false} StaysSorted(w: World, inputs: seq<Input>, cfg: Config, prepared: seq<(Report, set<string>)>,
      all: Report, sorted: seq<Sorted>, n: string)
    requires Inv(w) && |inputs| == |w.ranks| && AllOk(PrepareAll(w, inputs, cfg)) == Ok(prepared)
    requires all == Combine(Reports(prepared)) && Round(w, Reports(prepared), all, sorted)
    ensures n in sorted[0].cache.bits <==> StaysCached(w, inputs, cfg, n)
    ensures n in sorted[0].cache.bits ==>
      n in w.ranks[0].cache.store && n in sorted[0].cache.store && sorted[0].cache.store[n] == w.ranks[0].cache.store[n]
  {
    var c := w.ranks[0].cache;
    assert Valid(c) by { assert RankInv(w.ranks[0], 0, w.coord, |w.ranks|); }
    assert Split(w.ranks[0], all, sorted[0]);
    SurvivorKept(c, sorted[0].cache, all.invalid, n);
    hide Inv, Round, Valid, Split, PrepareAll, AllOk, Combine;
    if n in c.bits { GivenUpSomewhere(w, inputs, cfg, prepared, n); }
  }

  lemma {:induction false} OutstandingSent(w: World, reports: seq<Report>, all: Report, sorted: seq<Sorted>,
      m: Request, i: nat)
    requires Round(w, reports, all, sorted) && i < |w.ranks| && m in w.ranks[i].queue && m.name !in sorted[0].cache.bits
    ensures m in AllSent(sorted)[i]
  {
    assert Split(w.ranks[i], all, sorted[i]) && SameCache(sorted[0].cache, sorted[i].cache);
    hide Inv, Split;
  }

  lemma {:induction false} PartMember(parts: seq<seq<Request>>, i: nat, m: Request)
    requires i < |parts| && m in parts[i]
    ensures m in Concat(parts)
  {
    ConcatMembers(parts);
  }

  lemma {:induction false} SentFiled(w: World, sorted: seq<Sorted>, m: Request, i: nat)
    requires i < |sorted| && m in AllSent(sorted)[i]
    ensures m in Filed(w, sorted, m.name)
  {
    assert |AllSent(sorted)| == |sorted|;
    hide AllSent, RequestsFor;
    PartMember(AllSent(sorted), i, m);
  }

  lemma {:induction false} HeldFiled(w: World, sorted: seq<Sorted>, m: Request)
    requires m in RequestsFor(w.coord, m.name)
    ensures m in Filed(w, sorted, m.name)
  {
  }

  lemma {:induction false} OutstandingFiled(w: World, reports: seq<Report>, all: Report, sorted: seq<Sorted>,
      m: Request)
    requires Round(w, reports, all, sorted) && Outstanding(w, m) && m.name !in sorted[0].cache.bits
    ensures m in Filed(w, sorted, m.name)
  {
    assert |sorted| == |w.ranks|;
    hide Round, AllSent, Filed;
    if m in RequestsFor(w.coord, m.name) {
      HeldFiled(w, sorted, m);
    } else {
      var i :| 0 <= i < |w.ranks| && m in w.ranks[i].queue;
      OutstandingSent(w, reports, all, sorted, m, i);
      SentFiled(w, sorted, m, i);
    }
  }

  /** What the coordinator builds honours every request. */
  lemma {:induction false} BuiltHonours(n: string, ms: seq<Request>, m: Request)
    requires Complete(ms) && m in ms
    ensures Honours(Construct(n, ms), m)
  {
    hide Construct;
    ConstructMeaning(n, ms);
  }

  lemma {:induction false} RequestHonoured(w: World, reports: seq<Report>, all: Report, sorted: seq<Sorted>, m: Request)
    requires Round(w, reports, all, sorted) && AllIdle(w) && Outstanding(w, m)
    requires m.name !in sorted[0].cache.bits && Everywhere(w, m.name)
    ensures Filed(w, sorted, m.name) != [] && Honours(Construct(m.name, Filed(w, sorted, m.name)), m)
  {
    BuiltComplete(w, reports, all, sorted, m.name);
    OutstandingFiled(w, reports, all, sorted, m);
    hide Round, AllIdle, Outstanding, Filed, Construct, Honours, Everywhere, RequestsFor;
    BuiltHonours(m.name, Filed(w, sorted, m.name), m);
  }

  lemma {:induction false} CachedHonours(w: World, reports: seq<Report>, all: Report, sorted: seq<Sorted>, r: Response,
      m: Request)
    requires Round(w, reports, all, sorted) && FromCache(sorted[0].cache, all, r) && NameOf(r) == m.name
    ensures m.name in sorted[0].cache.bits && m.name in sorted[0].cache.store
    ensures Honours(r, m) <==> sorted[0].cache.store[m.name].response.kind == Perform(m.op)
  {
    CachedReduces(w, reports, all, sorted, r);
  }

  /** Whatever answers `m`'s tensor honours it exactly when it was built, or was cached for the same operation. */
  lemma {:induction false} SourceHonours(w: World, reports: seq<Report>, all: Report, sorted: seq<Sorted>, r: Response,
      m: Request)
    requires Round(w, reports, all, sorted) && AllIdle(w) && Sourced(w, all, sorted, r)
    requires Outstanding(w, m) && NameOf(r) == m.name
    ensures Honours(r, m) <==>
      (m.name in sorted[0].cache.bits ==>
        m.name in sorted[0].cache.store && sorted[0].cache.store[m.name].response.kind == Perform(m.op))
  {
    assert |sorted| == |w.ranks| > 0;
    hide Round, AllIdle, Outstanding, Construct, Filed, Everywhere, FromCache, Honours;
    if FromCache(sorted[0].cache, all, r) {
      CachedHonours(w, reports, all, sorted, r, m);
    } else {
      RequestHonoured(w, reports, all, sorted, m);
    }
  }

  lemma {:induction false} MergedFrom(group: seq<Response>, n: string) returns (r: Response)
    requires group != [] && Singles(group) && n in Merge(group).names
    requires forall j :: 0 <= j < |group| ==> group[j].kind == group[0].kind
    ensures r in group && NameOf(r) == n && r.kind == Merge(group).kind
  {
    MergeDevices(group);
    MergeNames(group);
    SingleNames(group);
    hide Merge;
    var j :| 0 <= j < |group| && AllNames(group)[j] == n;
    r := group[j];
  }

  lemma {:induction false} LawfulKinds(group: seq<Response>, t: Table, limit: int)
    requires Lawful(group, t, limit)
    ensures group != [] && forall j :: 0 <= j < |group| ==> group[j].kind == group[0].kind
  {
    forall j | 0 <= j < |group| ensures group[j].kind == group[0].kind { assert Compatible(group[0], group[j], t); }
  }

  lemma {:induction false} SinglesWithin(group: seq<Response>, rs: seq<Response>)
    requires Singles(rs) && forall m :: m in group ==> m in rs
    ensures Singles(group)
  {
    forall j | 0 <= j < |group| ensures group[j].names == [NameOf(group[j])] { assert group[j] in rs; }
  }

  /** A fused response has the kind of each response that went into it. */
  lemma {:induction false} FusedKind(rs: seq<Response>, t: Table, limit: int, g: Response, n: string)
    returns (r: Response)
    requires Known(rs, t) && Singles(rs) && g in Fuse(rs, t, limit) && n in g.names
    ensures r in rs && NameOf(r) == n && r.kind == g.kind
  {
    GroupsNonEmpty(rs, t, limit);
    GroupsLawful(rs, t, limit);
    var k :| 0 <= k < |Fuse(rs, t, limit)| && Fuse(rs, t, limit)[k] == g;
    var group := Groups(rs, t, limit)[k];
    GroupMembers(rs, t, limit, k);
    LawfulKinds(group, t, limit);
    assert g == Merge(group) && forall m :: m in group ==> m in rs;
    hide Known, Lawful, Fuse, Groups, Merge, Singles;
    SinglesWithin(group, rs);
    r := MergedFrom(group, n);
  }

  lemma {:induction false} FastListIs(w: World, cfg: Config, reports: seq<Report>, all: Report, sorted: seq<Sorted>)
    returns (rs: seq<Response>)
    requires Round(w, reports, all, sorted) && AllIdle(w) && TakesFastPath(w.ranks[0], all)
    requires FastOutcome(w, sorted, all, cfg).Ok? && FastOutcome(w, sorted, all, cfg).value.lists != []
    ensures Answers(w, sorted, rs) && Known(rs, w.ranks[0].table) && forall r :: r in rs ==> Sourced(w, all, sorted, r)
    ensures FastOutcome(w, sorted, all, cfg).value.lists[0].responses == Fuse(rs, w.ranks[0].table, cfg.limit)
  {
    rs := FastSources(w, cfg, reports, all, sorted);
    FastRank(w, cfg, reports, all, sorted, rs, 0);
    hide Round, FinishFast, FastList;
    assert FastAll(w, sorted, all, cfg)[0] == FinishFast(w.ranks[0], sorted[0], all, cfg);
  }

  lemma {:induction false} SlowLists(w: World, sorted: seq<Sorted>, all: Report, cfg: Config)
    requires w.ranks != [] && |sorted| == |w.ranks| && SlowOutcome(w, sorted, all, cfg).Ok?
    ensures Coordinate(w, sorted, all, cfg).Ok?
    ensures forall l :: l in SlowOutcome(w, sorted, all, cfg).value.lists ==>
      l.responses == Coordinate(w, sorted, all, cfg).value.1
  {
    hide Coordinate, FinishSlow;
  }

  lemma {:induction false} SlowListIs(w: World, cfg: Config, reports: seq<Report>, all: Report, sorted: seq<Sorted>)
    returns (rs: seq<Response>)
    requires Round(w, reports, all, sorted) && AllIdle(w)
    requires SlowOutcome(w, sorted, all, cfg).Ok? && SlowOutcome(w, sorted, all, cfg).value.lists != []
    ensures Answers(w, sorted, rs) && Known(rs, w.ranks[0].table) && forall r :: r in rs ==> Sourced(w, all, sorted, r)
    ensures SlowOutcome(w, sorted, all, cfg).value.lists[0].responses == Fuse(rs, w.ranks[0].table, cfg.limit)
  {
    assert |sorted| == |w.ranks| > 0;
    hide Coordinate, SlowOutcome;
    rs := SlowCoordinates(w, cfg, reports, all, sorted);
    SlowLists(w, sorted, all, cfg);
    hide Round, AllIdle, Answers, Sourced;
    assert SlowOutcome(w, sorted, all, cfg).value.lists[0] in SlowOutcome(w, sorted, all, cfg).value.lists;
  }

  /** Exactly when a response performs the operation that a request for one of its tensors asked for, or reports an
      error: the tensor is not answered from the cache, or was cached for that operation. */
  lemma {:induction false} OperationExact(w: World, inputs: seq<Input>, cfg: Config, g: Response, m: Request, i: nat)
    requires Inv(w) && AllIdle(w) && |inputs| == |w.ranks| && Negotiate(w, inputs, cfg).Ok? && Outstanding(w, m)
    requires i < |Negotiate(w, inputs, cfg).value.lists|
    requires g in Negotiate(w, inputs, cfg).value.lists[i].responses && m.name in g.names
    ensures StaysCached(w, inputs, cfg, m.name) ==> m.name in w.ranks[0].cache.store
    ensures Honours(g, m) <==>
      !StaysCached(w, inputs, cfg, m.name) || w.ranks[0].cache.store[m.name].response.kind == Perform(m.op)
  {
    CycleServes(w, inputs, cfg);
    var prepared, all, sorted := CycleStages(w, inputs, cfg);
    assert w.ranks != [];
    hide Inv, Round, AllIdle, Negotiate, Outstanding, StaysCached, Sourced, Answers, FastOutcome, SlowOutcome;
    var rs;
    if TakesFastPath(w.ranks[0], all) {
      rs := FastListIs(w, cfg, Reports(prepared), all, sorted);
    } else {
      rs := SlowListIs(w, cfg, Reports(prepared), all, sorted);
    }
    AnswersSingle(w, sorted, rs);
    var r := FusedKind(rs, w.ranks[0].table, cfg.limit, g, m.name);
    SourceHonours(w, Reports(prepared), all, sorted, r, m);
    StaysSorted(w, inputs, cfg, prepared, all, sorted, m.name);
  }

  lemma {:induction false} AnswersSingle(w: World, sorted: seq<Sorted>, rs: seq<Response>)
    requires |sorted| == |w.ranks| && Answers(w, sorted, rs)
    ensures Singles(rs)
  {
  }
}
