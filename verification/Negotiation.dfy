/**
  One negotiation cycle over all ranks.  Collectives are atomic and perfect; a lookup of an
  absent key, a conflicting cache entry and ranks that enter different collectives are
  reported as faults.
 */
module Negotiation {
  import opened Messages
  import opened Sequences
  import opened CacheModel
  import opened Fusion
  import opened Validation

  datatype Rank = Rank(
    table: Table,                 // tensor table
    queue: seq<Request>,          // message queue
    cache: Cache,
    watched: set<string>,         // names in the stall inspector's cached table
    pending: seq<Response>)       // agreed responses not performed yet

  datatype Coordinator = Coordinator(
    messages: map<string, seq<Request>>,   // message table
    waiting: map<string, seq<nat>>)        // the stall inspector's uncached table

  datatype World = World(ranks: seq<Rank>, coord: Coordinator)

  /** The fusion threshold, and whether stalls are checked for. */
  datatype Config = Config(limit: int, watching: bool)

  /** What a rank's surroundings contribute to a cycle: a shutdown request, whether a stall check
      is due, which watched names are overdue, and the coordinator's verdict on stalled tensors. */
  datatype Input = Input(shutdown: bool, checkDue: bool, overdue: set<string>, giveUp: bool)

  datatype Report = Report(hits: set<nat>, invalid: set<nat>, uncached: bool, shutdown: bool)

  /** A rank's view after the bits have been combined. */
  datatype Sorted = Sorted(cache: Cache, kept: seq<Request>, sent: seq<Request>, watched: set<string>)

  datatype Outcome = Outcome(world: World, lists: seq<ResponseList>)

  function AllOk<T>(rs: seq<Result<T>>): (r: Result<seq<T>>)
    ensures r.Ok? <==> forall i :: 0 <= i < |rs| ==> rs[i].Ok?
    ensures r.Ok? ==> |r.value| == |rs| && forall i :: 0 <= i < |rs| ==> r.value[i] == rs[i].value
  {
    if rs == [] then Ok([])
    else
      var first :- rs[0];
      var others :- AllOk(rs[1..]);
      Ok([first] + others)
  }

  // ---------------------------------------------------------------------
  // Before the bits are combined
  // ---------------------------------------------------------------------

  function StateOf(m: Request, c: Cache): CacheState {
    Cached(c, m.name, ParamsOf(m))
  }

  function BitsIn(queue: seq<Request>, c: Cache, state: CacheState): set<nat> {
    set m | m in queue && m.name in c.bits && StateOf(m, c) == state :: c.bits[m.name]
  }

  predicate AnyUncached(queue: seq<Request>, c: Cache) {
    exists m :: m in queue && StateOf(m, c) != Hit
  }

  /** Watched names once the queue has been looked through in order. */
  function Watch(watched: set<string>, queue: seq<Request>, c: Cache): set<string> {
    if queue == [] then watched
    else
      var before, m := Watch(watched, queue[..|queue| - 1], c), queue[|queue| - 1];
      if StateOf(m, c) == Hit then before + {m.name} else before - {m.name}
  }

  /** Watched names that have been pending for too long. */
  function Stalled(r: Rank, input: Input, cfg: Config): set<string> {
    if cfg.watching && input.checkDue then Watch(r.watched, r.queue, r.cache) * input.overdue else {}
  }

  function Prepare(r: Rank, input: Input, cfg: Config, isCoordinator: bool): Result<(Report, set<string>)> {
    var shutdown := input.shutdown || (cfg.watching && input.checkDue && isCoordinator && input.giveUp);
    if r.cache.capacity == 0 then Ok((Report({}, {}, false, shutdown), r.watched))
    else
      var stalled := Stalled(r, input, cfg);
      if exists n :: n in stalled && n !in r.cache.bits then Err(MissingKey)
      else
        var evicted := set n | n in stalled && n in r.cache.bits :: r.cache.bits[n];
        Ok((Report(BitsIn(r.queue, r.cache, Hit), BitsIn(r.queue, r.cache, Invalid) + evicted,
                   AnyUncached(r.queue, r.cache) || stalled != {}, shutdown),
            if cfg.watching then Watch(r.watched, r.queue, r.cache) else r.watched))
  }

  // ---------------------------------------------------------------------
  // Combining the bits
  // ---------------------------------------------------------------------

  function Combine(reports: seq<Report>): Report
    requires reports != []
  {
    Report(set b | b in reports[0].hits
      && (forall i :: 0 <= i < |reports| ==> b in reports[i].hits && b !in reports[i].invalid),
           set i, b | 0 <= i < |reports| && b in reports[i].invalid :: b,
           exists i :: 0 <= i < |reports| && reports[i].uncached,
           exists i :: 0 <= i < |reports| && reports[i].shutdown)
  }

  function EraseAll(c: Cache, bits: seq<nat>): Result<Cache>
    decreases |bits|
  {
    if bits == [] then Ok(c)
    else if !Live(c, bits[0]) then Err(MissingKey)
    else EraseAll(Erase(c, bits[0]), bits[1..])
  }

  predicate Common(m: Request, c: Cache, hits: set<nat>) {
    m.name in c.bits && c.bits[m.name] in hits
  }

  function Kept(queue: seq<Request>, c: Cache, hits: set<nat>): seq<Request> {
    if queue == [] then []
    else
      var before, m := Kept(queue[..|queue| - 1], c, hits), queue[|queue| - 1];
      if StateOf(m, c) == Hit && !Common(m, c, hits) then before + [m] else before
  }

  function Sent(queue: seq<Request>, c: Cache): seq<Request> {
    if queue == [] then []
    else
      var before, m := Sent(queue[..|queue| - 1], c), queue[|queue| - 1];
      if StateOf(m, c) == Hit then before else before + [m]
  }

  function Unwatch(watched: set<string>, queue: seq<Request>, c: Cache, hits: set<nat>): set<string> {
    if queue == [] then watched
    else
      var before, m := Unwatch(watched, queue[..|queue| - 1], c, hits), queue[|queue| - 1];
      if StateOf(m, c) == Hit && !Common(m, c, hits) then before else before - {m.name}
  }

  /** What a rank does between the collectives: drop invalid entries, then split its messages
      into those to try again, those answered from the cache, and those for the coordinator. */
  function SortOut(r: Rank, watched: set<string>, all: Report, cfg: Config): Result<Sorted> {
    if r.cache.capacity == 0 then Ok(Sorted(r.cache, [], r.queue, watched))
    else
      var c :- EraseAll(r.cache, Ascending(all.invalid, |r.cache.slots|));
      Ok(Sorted(c, Kept(r.queue, c, all.hits), Sent(r.queue, c),
                if cfg.watching then Unwatch(watched, r.queue, c, all.hits) else watched))
  }

  // ---------------------------------------------------------------------
  // The coordinator's part
  // ---------------------------------------------------------------------

  function RequestsFor(k: Coordinator, name: string): seq<Request> {
    if name in k.messages then k.messages[name] else []
  }

  function RanksFor(k: Coordinator, name: string): seq<nat> {
    if name in k.waiting then k.waiting[name] else []
  }

  /** Files one request; the name is ready when every rank has sent one. */
  function Record(k: Coordinator, m: Request): Coordinator {
    Coordinator(k.messages[m.name := RequestsFor(k, m.name) + [m]],
                k.waiting[m.name := RanksFor(k, m.name) + [m.rank]])
  }

  function Tally(k: Coordinator, ms: seq<Request>, size: nat): (Coordinator, seq<string>) {
    if ms == [] then (k, [])
    else
      var before, m := Tally(k, ms[..|ms| - 1], size), ms[|ms| - 1];
      var after := Record(before.0, m);
      (after, if |RequestsFor(after, m.name)| == size then before.1 + [m.name] else before.1)
  }

  function Answer(k: Coordinator, name: string): Coordinator {
    Coordinator(k.messages - {name}, k.waiting - {name})
  }

  /** Builds the responses for the ready names and clears their table entries. */
  function Respond(k: Coordinator, ready: seq<string>): Result<(Coordinator, seq<Response>)>
    decreases |ready|
  {
    if ready == [] then Ok((k, []))
    else if RequestsFor(k, ready[0]) == [] then Err(MissingKey)
    else
      var first := Construct(ready[0], RequestsFor(k, ready[0]));
      var others :- Respond(Answer(k, ready[0]), ready[1..]);
      Ok((others.0, [first] + others.1))
  }

  function Concat(parts: seq<seq<Request>>): seq<Request> {
    if parts == [] then [] else Concat(parts[..|parts| - 1]) + parts[|parts| - 1]
  }

  function PeekAll(c: Cache, bits: seq<nat>): Result<seq<Response>> {
    if bits == [] then Ok([])
    else if !Live(c, bits[0]) then Err(MissingKey)
    else
      var others :- PeekAll(c, bits[1..]);
      Ok([Peek(c, bits[0])] + others)
  }

  function GetAll(c: Cache, bits: seq<nat>): Result<(Cache, seq<Response>)>
    decreases |bits|
  {
    if bits == [] then Ok((c, []))
    else if !Live(c, bits[0]) then Err(MissingKey)
    else
      var others :- GetAll(Get(c, bits[0]), bits[1..]);
      Ok((others.0, [Peek(c, bits[0])] + others.1))
  }

  function FuseKnown(rs: seq<Response>, t: Table, limit: int): Result<seq<Response>> {
    if Known(rs, t) then Ok(Fuse(rs, t, limit)) else Err(MissingKey)
  }

  // ---------------------------------------------------------------------
  // After the response list is known
  // ---------------------------------------------------------------------

  predicate Cacheable(r: Response, size: nat) {
    Reduces(r.kind) && |r.devices| == size
  }

  /** One response for each of the first `k` names. */
  function Pieces(r: Response, k: nat): (ps: seq<Response>)
    requires k <= |r.names|
    ensures |ps| == k && forall i :: 0 <= i < k ==> ps[i] == r.(names := [r.names[i]])
  {
    if k == 0 then [] else Pieces(r, k - 1) + [r.(names := [r.names[k - 1]])]
  }

  function Unfuse(r: Response): seq<Response> {
    if |r.names| > 1 then Pieces(r, |r.names|) else [r]
  }

  /** The single-tensor responses that enter the cache, in order. */
  function ToCache(list: seq<Response>, size: nat): seq<Response> {
    if list == [] then []
    else
      ToCache(list[..|list| - 1], size)
      + (if Cacheable(list[|list| - 1], size) then Unfuse(list[|list| - 1]) else [])
  }

  function PutOne(c: Cache, r: Response, t: Table): Result<Cache> {
    if c.capacity == 0 then Ok(c)
    else if |r.names| != 1 || NameOf(r) !in t then Err(MissingKey)
    else Put(c, r, t[NameOf(r)])
  }

  function PutAll(c: Cache, rs: seq<Response>, t: Table): Result<Cache> {
    if rs == [] then Ok(c)
    else
      var before :- PutAll(c, rs[..|rs| - 1], t);
      PutOne(before, rs[|rs| - 1], t)
  }

  // ---------------------------------------------------------------------
  // The whole cycle
  // ---------------------------------------------------------------------

  /** All messages are answered from the cache. */
  function FinishFast(r: Rank, s: Sorted, all: Report, cfg: Config): Result<(Rank, ResponseList)> {
    if all.hits == {} then Ok((Rank(r.table, s.kept, s.cache, s.watched, []), ResponseList([], all.shutdown)))
    else
      var got :- GetAll(s.cache, Ascending(all.hits, |s.cache.slots|));
      var fused :- FuseKnown(got.1, r.table, cfg.limit);
      Ok((Rank(r.table, s.kept, UpdateBits(got.0), s.watched, fused), ResponseList(fused, false)))
  }

  /** The coordinator's response list, and its tables afterwards. */
  function Coordinate(w: World, sorted: seq<Sorted>, all: Report, cfg: Config): Result<(Coordinator, seq<Response>)>
    requires w.ranks != [] && |sorted| == |w.ranks|
  {
    var tally := Tally(w.coord, Concat(seq(|sorted|, i requires 0 <= i < |sorted| => sorted[i].sent)), |w.ranks|);
    var c := sorted[0].cache;
    var fromCache :- if c.capacity > 0 then PeekAll(c, Ascending(all.hits, |c.slots|)) else Ok([]);
    var built :- Respond(tally.0, tally.1);
    var fused :- FuseKnown(fromCache + built.1, w.ranks[0].table, cfg.limit);
    Ok((built.0, fused))
  }

  /** Every rank receives the coordinator's list and caches what can be cached. */
  function FinishSlow(r: Rank, s: Sorted, list: seq<Response>, size: nat): Result<Rank> {
    var c :- if s.cache.capacity > 0 then PutAll(s.cache, ToCache(list, size), r.table) else Ok(s.cache);
    Ok(Rank(r.table, s.kept, UpdateBits(c), s.watched, list))
  }

  predicate SameShape(w: World) {
    forall i :: 0 <= i < |w.ranks| ==>
      && (w.ranks[i].cache.capacity == 0) == (w.ranks[0].cache.capacity == 0)
      && |w.ranks[i].cache.slots| == |w.ranks[0].cache.slots|
  }

  function PrepareAll(w: World, inputs: seq<Input>, cfg: Config): (s: seq<Result<(Report, set<string>)>>)
    requires |inputs| == |w.ranks|
    ensures |s| == |w.ranks| && forall i :: 0 <= i < |s| ==> s[i] == Prepare(w.ranks[i], inputs[i], cfg, i == 0)
  {
    seq(|w.ranks|, i requires 0 <= i < |w.ranks| => Prepare(w.ranks[i], inputs[i], cfg, i == 0))
  }

  function Reports(prepared: seq<(Report, set<string>)>): (s: seq<Report>)
    ensures |s| == |prepared| && forall i :: 0 <= i < |s| ==> s[i] == prepared[i].0
  {
    seq(|prepared|, i requires 0 <= i < |prepared| => prepared[i].0)
  }

  function SortAll(w: World, prepared: seq<(Report, set<string>)>, all: Report, cfg: Config): (s: seq<Result<Sorted>>)
    requires |prepared| == |w.ranks|
    ensures |s| == |w.ranks| && forall i :: 0 <= i < |s| ==> s[i] == SortOut(w.ranks[i], prepared[i].1, all, cfg)
  {
    seq(|w.ranks|, i requires 0 <= i < |w.ranks| => SortOut(w.ranks[i], prepared[i].1, all, cfg))
  }

  function FastAll(w: World, sorted: seq<Sorted>, all: Report, cfg: Config): (s: seq<Result<(Rank, ResponseList)>>)
    requires |sorted| == |w.ranks|
    ensures |s| == |w.ranks| && forall i :: 0 <= i < |s| ==> s[i] == FinishFast(w.ranks[i], sorted[i], all, cfg)
  {
    seq(|w.ranks|, i requires 0 <= i < |w.ranks| => FinishFast(w.ranks[i], sorted[i], all, cfg))
  }

  function SlowAll(w: World, sorted: seq<Sorted>, list: seq<Response>): (s: seq<Result<Rank>>)
    requires |sorted| == |w.ranks|
    ensures |s| == |w.ranks| && forall i :: 0 <= i < |s| ==> s[i] == FinishSlow(w.ranks[i], sorted[i], list, |w.ranks|)
  {
    seq(|w.ranks|, i requires 0 <= i < |w.ranks| => FinishSlow(w.ranks[i], sorted[i], list, |w.ranks|))
  }

  /** No rank has anything new for the coordinator. */
  predicate TakesFastPath(r: Rank, all: Report) {
    r.cache.capacity > 0 && !all.uncached
  }

  function FastOutcome(w: World, sorted: seq<Sorted>, all: Report, cfg: Config): Result<Outcome>
    requires |sorted| == |w.ranks|
  {
    var done :- AllOk(FastAll(w, sorted, all, cfg));
    Ok(Outcome(World(seq(|done|, i requires 0 <= i < |done| => done[i].0), w.coord),
               seq(|done|, i requires 0 <= i < |done| => done[i].1)))
  }

  function SlowOutcome(w: World, sorted: seq<Sorted>, all: Report, cfg: Config): Result<Outcome>
    requires w.ranks != [] && |sorted| == |w.ranks|
  {
    var answer :- Coordinate(w, sorted, all, cfg);
    var done :- AllOk(SlowAll(w, sorted, answer.1));
    Ok(Outcome(World(done, answer.0), seq(|done|, i => ResponseList(answer.1, all.shutdown))))
  }

  function Negotiate(w: World, inputs: seq<Input>, cfg: Config): Result<Outcome>
    requires w.ranks != [] && |inputs| == |w.ranks|
  {
    var prepared :- AllOk(PrepareAll(w, inputs, cfg));
    if !SameShape(w) then Err(Diverged)
    else
      var all := Combine(Reports(prepared));
      var sorted :- AllOk(SortAll(w, prepared, all, cfg));
      if TakesFastPath(w.ranks[0], all) then FastOutcome(w, sorted, all, cfg) else SlowOutcome(w, sorted, all, cfg)
  }
}
