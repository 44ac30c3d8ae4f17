/**
  One rank's controller in place: it sorts its messages by what the cache says, and catches up with
  what all ranks have agreed on.
 */
module Controllers {
  import opened Messages
  import opened Sequences
  import opened CacheModel
  import opened Fusion
  import opened Negotiation
  import opened Invariants
  import opened CycleProofs
  import opened ResponseCaches
  import opened CacheCoordinators
  import opened StallInspectors
  import opened TensorQueues
  import opened FusionLoops
  import opened ConstructLoops

  // ---------------------------------------------------------------------
  // One more message
  // ---------------------------------------------------------------------

  lemma {:induction false} BitsNext(queue: seq<Request>, i: nat, c: Cache, state: CacheState)
    requires i < |queue|
    ensures
      var m := queue[i];
      BitsIn(queue[..i + 1], c, state)
      == BitsIn(queue[..i], c, state) + (if m.name in c.bits && StateOf(m, c) == state then {c.bits[m.name]} else {})
  {
    hide CacheModel.Cached;
    assert queue[..i + 1] == queue[..i] + [queue[i]];
  }

  lemma {:induction false} UncachedNext(queue: seq<Request>, i: nat, c: Cache)
    requires i < |queue|
    ensures AnyUncached(queue[..i + 1], c) <==> AnyUncached(queue[..i], c) || StateOf(queue[i], c) != Hit
  {
    assert queue[..i + 1] == queue[..i] + [queue[i]];
    if StateOf(queue[i], c) != Hit { assert queue[i] in queue[..i + 1]; }
    if AnyUncached(queue[..i], c) {
      var m :| m in queue[..i] && StateOf(m, c) != Hit;
      assert m in queue[..i + 1];
    }
  }

  lemma {:induction false} WatchNext(watched: set<string>, queue: seq<Request>, i: nat, c: Cache)
    requires i < |queue|
    ensures Watch(watched, queue[..i + 1], c)
      == (if StateOf(queue[i], c) == Hit then Watch(watched, queue[..i], c) + {queue[i].name}
      else Watch(watched, queue[..i], c) - {queue[i].name})
  {
    assert queue[..i + 1][..i] == queue[..i];
  }

  lemma {:induction false} SortNext(watched: set<string>, queue: seq<Request>, i: nat, c: Cache, hits: set<nat>)
    requires i < |queue|
    ensures
      var m := queue[i];
      var waits := StateOf(m, c) == Hit && !Common(m, c, hits);
      && Kept(queue[..i + 1], c, hits) == (if waits then Kept(queue[..i], c, hits) + [m] else Kept(queue[..i], c, hits))
      && Sent(queue[..i + 1], c) == (if StateOf(m, c) == Hit then Sent(queue[..i], c) else Sent(queue[..i], c) + [m])
      && Unwatch(watched, queue[..i + 1], c, hits)
        == (if waits then Unwatch(watched, queue[..i], c, hits) else Unwatch(watched, queue[..i], c, hits) - {m.name})
  {
    assert queue[..i + 1][..i] == queue[..i];
  }

  lemma {:induction false} CachedBit(c: Cache, m: Request)
    requires CacheModel.Valid(c) && StateOf(m, c) != Miss
    ensures m.name in c.bits && c.bits[m.name] < |c.slots|
  {
  }

  lemma {:induction false} LiveIff(c: Cache, list: seq<Node>, iters: seq<Option<Node>>, bit: nat)
    requires Represents(c, list, iters)
    ensures CacheModel.Valid(c) && |iters| == |c.slots|
    ensures Live(c, bit) <==> bit < |iters| && iters[bit].Some?
  {
  }

  // ---------------------------------------------------------------------
  // Before the bits are combined
  // ---------------------------------------------------------------------

  /** What the messages seen so far have left in the coordinator of the bits and in the stall table. */
  ghost predicate Classified(report: Report, keys: set<string>, first: Report, watched: set<string>,
      queue: seq<Request>, c: Cache, watching: bool)
  {
    && report == Report(first.hits + BitsIn(queue, c, Hit), first.invalid + BitsIn(queue, c, Invalid),
                        first.uncached || AnyUncached(queue, c), first.shutdown)
    && keys == if watching then Watch(watched, queue, c) else watched
  }

  lemma {:induction false} ClassifyNone(first: Report, watched: set<string>, queue: seq<Request>, c: Cache,
      watching: bool)
    ensures Classified(first, watched, first, watched, queue[..0], c, watching)
  {
    assert queue[..0] == [];
  }

  /** The records after one more message. */
  function Seen(report: Report, m: Request, c: Cache): Report {
    var bits := if m.name in c.bits then {c.bits[m.name]} else {};
    match StateOf(m, c)
    case Hit => report.(hits := report.hits + bits)
    case Invalid => report.(invalid := report.invalid + bits, uncached := true)
    case Miss => report.(uncached := true)
  }

  function SeenKeys(keys: set<string>, m: Request, c: Cache, watching: bool): set<string> {
    if !watching then keys else if StateOf(m, c) == Hit then keys + {m.name} else keys - {m.name}
  }

  function SeenTimes(times: map<string, int>, m: Request, c: Cache, now: int): map<string, int> {
    if StateOf(m, c) != Hit then times - {m.name} else if m.name in times then times else times[m.name := now]
  }

  /** Since when the cached tensors are pending, once the queue has been looked through in order. */
  function Times(times: map<string, int>, queue: seq<Request>, c: Cache, now: int): map<string, int> {
    if queue == [] then times
    else SeenTimes(Times(times, queue[..|queue| - 1], c, now), queue[|queue| - 1], c, now)
  }

  lemma {:induction false} TimesNext(times: map<string, int>, queue: seq<Request>, i: nat, c: Cache, now: int)
    requires i < |queue|
    ensures Times(times, queue[..i + 1], c, now) == SeenTimes(Times(times, queue[..i], c, now), queue[i], c, now)
  {
    assert queue[..i + 1][..i] == queue[..i];
  }

  /** Some queued request for n has the attributes that n is cached with. */
  ghost predicate QueuedAsCached(queue: seq<Request>, c: Cache, n: string) {
    n in c.bits && n in c.store && exists m :: m in queue && m.name == n && ParamsOf(m) == c.store[n].params
  }

  lemma {:induction false} QueuedLast(queue: seq<Request>, c: Cache, n: string)
    requires queue != [] && DistinctNames(queue)
    ensures
      var front, m := queue[..|queue| - 1], queue[|queue| - 1];
      && DistinctNames(front) && (n in Names(queue) <==> n in Names(front) || n == m.name)
      && (m.name == n ==> n !in Names(front) && (QueuedAsCached(queue, c, n) <==> StateOf(m, c) == Hit))
      && (m.name != n ==> (QueuedAsCached(queue, c, n) <==> QueuedAsCached(front, c, n)))
  {
    NamesSplit(queue);
    FrontDistinct(queue);
  }

  /** It is watched since it was first seen. */
  lemma {:induction false} TimesAre(times: map<string, int>, queue: seq<Request>, c: Cache, now: int, n: string)
    requires DistinctNames(queue)
    ensures n in Times(times, queue, c, now) <==>
      if n in Names(queue) then QueuedAsCached(queue, c, n) else n in times
    ensures n in Times(times, queue, c, now) ==>
      Times(times, queue, c, now)[n] == if n in times then times[n] else now
  {
    if queue != [] {
      QueuedLast(queue, c, n);
      TimesAre(times, queue[..|queue| - 1], c, now, n);
      hide QueuedAsCached, Names, StateOf;
    }
  }

  /** Since when the cached tensors are pending, once a rank's queue is classified. */
  function TimesOf(s: Stalls, r: Rank, now: int): map<string, int> {
    if s.performs && r.cache.capacity > 0 then Times(s.cached, r.queue, r.cache, now) else s.cached
  }

  /** What a rank's surroundings contribute to a cycle: what its inspector finds once the queue is classified. */
  ghost function InputOf(s: Stalls, r: Rank, down: bool, size: nat, isCoordinator: bool, now: int): Input {
    Input(down, CheckDue(s, now), Exceeding(TimesOf(s, r, now), s.warning, now),
          CheckDue(s, now) && isCoordinator && GivesUp(s.uncached, size, now, s.warning, s.shutdown))
  }

  lemma {:induction false} SeenReport(first: Report, queue: seq<Request>, i: nat, c: Cache)
    requires i < |queue|
    ensures
      var before := Report(first.hits + BitsIn(queue[..i], c, Hit), first.invalid + BitsIn(queue[..i], c, Invalid),
        first.uncached || AnyUncached(queue[..i], c), first.shutdown);
      Seen(before, queue[i], c)
      == Report(first.hits + BitsIn(queue[..i + 1], c, Hit), first.invalid + BitsIn(queue[..i + 1], c, Invalid),
        first.uncached || AnyUncached(queue[..i + 1], c), first.shutdown)
  {
    BitsNext(queue, i, c, Hit);
    BitsNext(queue, i, c, Invalid);
    UncachedNext(queue, i, c);
    hide BitsIn, AnyUncached, StateOf;
  }

  lemma {:induction false} ClassifyNext(report: Report, keys: set<string>, first: Report, watched: set<string>,
      queue: seq<Request>, i: nat, c: Cache, watching: bool)
    requires i < |queue| && Classified(report, keys, first, watched, queue[..i], c, watching)
    ensures Classified(Seen(report, queue[i], c), SeenKeys(keys, queue[i], c, watching), first, watched,
      queue[..i + 1], c, watching)
  {
    SeenReport(first, queue, i, c);
    WatchNext(watched, queue, i, c);
    hide BitsIn, AnyUncached, Watch, StateOf, Seen;
  }

  class Controller {
    const size: nat
    const isCoordinator: bool
    const tensorQueue: TensorQueue
    const responseCache: ResponseCache
    const stallInspector: StallInspector
    var messageTable: map<string, seq<Request>>

    constructor (size: nat, isCoordinator: bool, tensorQueue: TensorQueue, responseCache: ResponseCache,
        stallInspector: StallInspector)
      ensures this.size == size && this.isCoordinator == isCoordinator && messageTable == map[]
      ensures this.tensorQueue == tensorQueue && this.responseCache == responseCache
        && this.stallInspector == stallInspector
    {
      this.size, this.isCoordinator := size, isCoordinator;
      this.tensorQueue, this.responseCache, this.stallInspector := tensorQueue, responseCache, stallInspector;
      messageTable := map[];
    }

    /** The tensors' attributes. */
    function Params(): Table
      reads tensorQueue
    {
      map n | n in tensorQueue.table :: tensorQueue.table[n].params
    }

    /** This rank as negotiation sees it. */
    ghost function View(): Rank
      reads this, tensorQueue, responseCache, stallInspector
    {
      Rank(Params(), tensorQueue.queue, responseCache.model, stallInspector.cachedTensorTable.Keys, [])
    }

    /** The coordinator's tables as negotiation sees them. */
    ghost function Tables(): Coordinator
      reads this, stallInspector
    {
      Coordinator(messageTable, stallInspector.Waiting())
    }

    /** Looks a message up in the cache and records a hit, an invalid entry or a miss. */
    method ClassifyOne(message: Request, cc: CacheCoordinator, now: int)
      requires responseCache.Valid() && cc.Valid() && cc.numActiveBits == |responseCache.iters|
      modifies cc, stallInspector`cachedTensorTable
      ensures cc.Valid() && cc.View() == Seen(old(cc.View()), message, responseCache.model)
      ensures stallInspector.cachedTensorTable.Keys
        == SeenKeys(old(stallInspector.cachedTensorTable).Keys, message, responseCache.model,
          stallInspector.performStallCheck)
      ensures stallInspector.cachedTensorTable == (if stallInspector.performStallCheck
        then SeenTimes(old(stallInspector.cachedTensorTable), message, responseCache.model, now)
          else old(stallInspector.cachedTensorTable))
    {
      hide Represents, CacheModel.Valid;
      ghost var c := responseCache.model;
      LiveIff(c, responseCache.list, responseCache.iters, 0);
      var state := responseCache.Cached(message.name, ParamsOf(message));
      if state != Miss { CachedBit(c, message); }
      if state == Hit {
        var bit := responseCache.PeekCacheBit(message.name);
        cc.RecordHit(bit);
        stallInspector.RecordCachedTensorStart(message.name, now);
      } else {
        if state == Invalid {
          var bit := responseCache.PeekCacheBit(message.name);
          cc.RecordInvalidBit(bit);
        }
        cc.SetUncachedInQueue(true);
        stallInspector.RemoveCachedTensor(message.name);
      }
    }

    method Classify(messages: seq<Request>, cc: CacheCoordinator, now: int)
      requires responseCache.Valid() && cc.Valid() && cc.numActiveBits == |responseCache.iters|
      modifies cc, stallInspector`cachedTensorTable
      ensures cc.Valid()
      ensures Classified(cc.View(), stallInspector.cachedTensorTable.Keys, old(cc.View()),
        old(stallInspector.cachedTensorTable.Keys),
        messages, responseCache.model, stallInspector.performStallCheck)
      ensures stallInspector.cachedTensorTable == (if stallInspector.performStallCheck
        then Times(old(stallInspector.cachedTensorTable), messages, responseCache.model, now)
          else old(stallInspector.cachedTensorTable))
    {
      hide Classified, Seen, SeenKeys, SeenTimes, Represents;
      ghost var c, first, watched, watching := responseCache.model, cc.View(), stallInspector.cachedTensorTable.Keys,
        stallInspector.performStallCheck;
      ghost var times := stallInspector.cachedTensorTable;
      ClassifyNone(first, watched, messages, c, watching);
      var i := 0;
      while i < |messages|
        invariant i <= |messages| && cc.Valid() && responseCache.Valid() && responseCache.model == c
        invariant Classified(cc.View(), stallInspector.cachedTensorTable.Keys, first, watched, messages[..i], c,
          watching)
        invariant stallInspector.cachedTensorTable == if watching then Times(times, messages[..i], c, now) else times
      {
        TimesNext(times, messages, i, c, now);
        ClassifyNext(cc.View(), stallInspector.cachedTensorTable.Keys, first, watched, messages, i, c, watching);
        ClassifyOne(messages[i], cc, now);
        i := i + 1;
      }
      assert messages[..i] == messages;
    }

    /** A rank's part of a cycle up to the combination of the bits; `cc` has just been made for this cycle. */
    method BeforeSync(cc: CacheCoordinator, shutDown: bool, now: int, limit: int)
      returns (messages: seq<Request>, ok: bool, ghost input: Input, ghost missing: map<nat, set<string>>)
      requires responseCache.Valid() && cc.Valid() && cc.View() == Report({}, {}, false, false)
      requires cc.numActiveBits == |responseCache.iters|
      modifies tensorQueue`queue, stallInspector`cachedTensorTable, stallInspector`lastStallCheck, cc
      ensures messages == old(tensorQueue.queue) && tensorQueue.queue == []
      ensures input == InputOf(old(stallInspector.View()), old(View()), shutDown, size, isCoordinator, now)
      ensures stallInspector.lastStallCheck
        == if CheckDue(old(stallInspector.View()), now) then now else old(stallInspector.lastStallCheck)
      ensures forall r: nat, n :: Listed(missing, r, n) <==>
        Warns(old(stallInspector.View()), size, isCoordinator, now, r, n)
      ensures stallInspector.cachedTensorTable == TimesOf(old(stallInspector.View()), old(View()), now)
      ensures
        var prepared := Prepare(old(View()), input, Config(limit, stallInspector.performStallCheck), isCoordinator);
        && ok == prepared.Ok?
        && (ok ==> cc.Valid() && prepared.value == (cc.View(), stallInspector.cachedTensorTable.Keys))
    {
      hide Represents, Watch, BitsIn, AnyUncached, Times, GivesUp;
      ghost var stalls := stallInspector.View();
      ghost var r, c, watching := View(), responseCache.model, stallInspector.performStallCheck;
      LiveIff(c, responseCache.list, responseCache.iters, 0);
      ghost var due := stallInspector.ShouldPerformCheck(now);
      messages := tensorQueue.PopMessages();
      if responseCache.capacity > 0 { Classify(messages, cc, now); }
      ghost var classified, overdue, giveUp := cc.View(), stallInspector.Overdue(now), false;
      var shouldShutDown := shutDown;
      ok := true;
      missing := map[];
      if stallInspector.ShouldPerformCheck(now) {
        if isCoordinator {
          var late, down := stallInspector.CheckForStalledTensors(size, now);
          missing, giveUp := late, down;
          shouldShutDown := shouldShutDown || down;
        }
        if responseCache.capacity > 0 {
          BitsBelow(c);
          ok := stallInspector.InvalidateStalledCachedTensors(cc, responseCache.nameToBit, now);
        }
        stallInspector.UpdateCheckTime(now);
      }
      input := Input(shutDown, due, overdue, giveUp);
      if ok { cc.SetShouldShutDown(shouldShutDown); }
      if responseCache.capacity > 0 {
        PreparedCached(r, input, Config(limit, watching), isCoordinator, classified, overdue);
      }
    }

    /** Erases entries in the order of their bits; stops at one that is not there. */
    method EraseInvalid(invalid: set<nat>) returns (ok: bool)
      requires responseCache.Valid()
      modifies responseCache
      ensures responseCache.Valid()
      ensures
        var erased := EraseAll(old(responseCache.model), Ascending(invalid, |old(responseCache.model).slots|));
        ok == erased.Ok? && (ok ==> responseCache.model == erased.value)
    {
      hide Represents, Live;
      ghost var c := responseCache.model;
      LiveIff(c, responseCache.list, responseCache.iters, 0);
      var bits := Ascending(invalid, |responseCache.iters|);
      var i := 0;
      assert bits[0..] == bits;
      while i < |bits|
        invariant i <= |bits| && responseCache.Valid() && EraseAll(c, bits) == EraseAll(responseCache.model, bits[i..])
      {
        var bit := bits[i];
        LiveIff(responseCache.model, responseCache.list, responseCache.iters, bit);
        EraseNext(responseCache.model, bits, i);
        if !(bit < |responseCache.iters| && responseCache.iters[bit].Some?) { return false; }
        responseCache.EraseResponse(bit);
        i := i + 1;
      }
      EraseNone(responseCache.model, bits[i..]);
      ok := true;
    }

    /** Splits the messages: those to try again go back into the queue, those for the coordinator remain. */
    method SplitMessages(messages: seq<Request>, hits: set<nat>) returns (sent: seq<Request>)
      requires responseCache.Valid()
      modifies tensorQueue`queue, stallInspector`cachedTensorTable
      ensures sent == Sent(messages, responseCache.model)
      ensures tensorQueue.queue == old(tensorQueue.queue) + Kept(messages, responseCache.model, hits)
      ensures stallInspector.cachedTensorTable.Keys == (if stallInspector.performStallCheck
        then Unwatch(old(stallInspector.cachedTensorTable.Keys), messages, responseCache.model, hits)
          else old(stallInspector.cachedTensorTable.Keys))
      ensures TimesShrunk(old(stallInspector.cachedTensorTable), stallInspector.cachedTensorTable)
    {
      hide Represents, Sent, Kept, Unwatch;
      ghost var c, watched := responseCache.model, stallInspector.cachedTensorTable.Keys;
      var buffer := messages;
      var i := 0;
      SortNone(watched, messages, c, hits);
      assert messages[0..] + Sent(messages[..0], c) == messages;
      while i < |messages|
        invariant i <= |messages| && buffer == messages[i..] + Sent(messages[..i], c)
        invariant tensorQueue.queue == old(tensorQueue.queue) + Kept(messages[..i], c, hits)
        invariant stallInspector.cachedTensorTable.Keys
          == if stallInspector.performStallCheck then Unwatch(watched, messages[..i], c, hits) else watched
        invariant TimesShrunk(old(stallInspector.cachedTensorTable), stallInspector.cachedTensorTable)
      {
        var message := buffer[0];
        assert message == messages[i] && buffer[1..] == messages[i + 1..] + Sent(messages[..i], c);
        SortNext(watched, messages, i, c, hits);
        buffer := buffer[1..];
        var state := responseCache.Cached(message.name, ParamsOf(message));
        if state == Hit {
          HasBit(c, message);
          var bit := responseCache.PeekCacheBit(message.name);
          if bit !in hits {
            tensorQueue.PushMessage(message);
          } else {
            stallInspector.RemoveCachedTensor(message.name);
          }
        } else {
          stallInspector.RemoveCachedTensor(message.name);
          buffer := buffer + [message];
        }
        i := i + 1;
      }
      assert messages[..i] == messages && messages[i..] == [];
      sent := buffer;
    }

    /** A rank's part of a cycle once the bits are combined. */
    method AfterSync(messages: seq<Request>, all: Report, limit: int) returns (sent: seq<Request>, ok: bool)
      requires responseCache.Valid() && tensorQueue.queue == []
      modifies responseCache, tensorQueue`queue, stallInspector`cachedTensorTable
      ensures responseCache.Valid()
      ensures
        var r := old(View()).(queue := messages);
        var sorted := SortOut(r, r.watched, all, Config(limit, stallInspector.performStallCheck));
        && ok == sorted.Ok?
        && (ok ==>
              sorted.value
              == Sorted(responseCache.model, tensorQueue.queue, sent, stallInspector.cachedTensorTable.Keys))
      ensures TimesShrunk(old(stallInspector.cachedTensorTable), stallInspector.cachedTensorTable)
    {
      hide EraseAll, Kept, Sent, Unwatch, Represents;
      sent, ok := messages, true;
      if responseCache.capacity > 0 {
        ok := EraseInvalid(all.invalid);
        if ok { sent := SplitMessages(messages, all.hits); }
      }
    }

    /** Turns the common hits into responses, least recently used first, and marks them as used. */
    method TakeHits(hits: set<nat>) returns (responses: seq<Response>, ok: bool)
      requires responseCache.Valid()
      modifies responseCache
      ensures responseCache.Valid()
      ensures
        var got := GetAll(old(responseCache.model), Ascending(hits, |old(responseCache.model).slots|));
        ok == got.Ok? && (ok ==> got.value == (responseCache.model, responses))
    {
      hide Represents, Live;
      ghost var c := responseCache.model;
      LiveIff(c, responseCache.list, responseCache.iters, 0);
      var bits := Ascending(hits, |responseCache.iters|);
      responses := [];
      var i := 0;
      TookNone(c, bits);
      while i < |bits|
        invariant i <= |bits| && responseCache.Valid() && Took(c, bits, i, responseCache.model, responses)
      {
        hide Took;
        var bit := bits[i];
        LiveIff(responseCache.model, responseCache.list, responseCache.iters, bit);
        TookNext(c, bits, i, responseCache.model, responses);
        if !(bit < |responseCache.iters| && responseCache.iters[bit].Some?) { return responses, false; }
        var response := responseCache.GetResponse(bit);
        responses := responses + [response];
        i := i + 1;
      }
      TookAll(c, bits, responseCache.model, responses);
      ok := true;
    }

    /** The rest of a cycle in which no rank has anything new: all answers come from the cache. */
    method AnswerFromCache(all: Report, limit: int) returns (list: ResponseList, ok: bool)
      requires responseCache.Valid()
      modifies responseCache
      ensures responseCache.Valid()
      ensures
        var r := old(View());
        var done := FinishFast(r, Sorted(r.cache, r.queue, [], r.watched), all, Config(limit, false));
        ok == done.Ok? && (ok ==> done.value == (View().(pending := list.responses), list))
    {
      hide GetAll, Fuse, Represents, UpdateBits;
      if all.hits == {} { return ResponseList([], all.shutdown), true; }
      var responses: seq<Response>;
      responses, ok := TakeHits(all.hits);
      list := ResponseList([], false);
      if !ok { return; }
      var t := Params();
      if !Known(responses, t) { return list, false; }
      var fused := FuseResponses(responses, t, limit);
      list := ResponseList(fused, false);
      responseCache.UpdateCacheBits();
    }

    /** Puts what can be cached into the cache. */
    method CacheResponses(list: seq<Response>) returns (ok: bool)
      requires responseCache.Valid() && responseCache.capacity > 0
      requires forall r :: r in list ==> r.names != []
      modifies responseCache
      ensures responseCache.Valid()
      ensures
        var put := PutAll(old(responseCache.model), ToCache(list, size), Params());
        ok == put.Ok? && (ok ==> responseCache.model == put.value)
    {
      hide PutAll, ToCache, Unfuse, Represents, Cacheable;
      ghost var c := responseCache.model;
      var t := Params();
      var i := 0;
      CachedNone(c, list, size, t);
      while i < |list|
        invariant i <= |list| && responseCache.Valid()
          && PutAll(c, ToCache(list[..i], size), t) == Ok(responseCache.model)
      {
        assert list[i] in list;
        CachedNext(c, list, size, t, i);
        if Cacheable(list[i], size) {
          var put := responseCache.Put(list[i], t);
          if !put {
            CachedStops(c, list, size, t, i + 1, |list|);
            assert list[..|list|] == list;
            return false;
          }
        }
        i := i + 1;
      }
      assert list[..i] == list;
      ok := true;
    }

    /** The rest of a cycle with news: the coordinator's list has arrived. */
    method Finish(list: seq<Response>) returns (ok: bool)
      requires responseCache.Valid() && forall r :: r in list ==> r.names != []
      modifies responseCache
      ensures responseCache.Valid()
      ensures
        var r := old(View());
        var done := FinishSlow(r, Sorted(r.cache, r.queue, [], r.watched), list, size);
        ok == done.Ok? && (ok ==> done.value == View().(pending := list))
    {
      hide PutAll, ToCache, Represents, UpdateBits;
      ok := true;
      if responseCache.capacity > 0 { ok := CacheResponses(list); }
      if ok { responseCache.UpdateCacheBits(); }
    }

    // -------------------------------------------------------------------
    // The coordinator
    // -------------------------------------------------------------------

    /** Files a request; the tensor is ready when every rank has asked for it. */
    method IncrementTensorCount(m: Request) returns (ready: bool)
      modifies this`messageTable
      ensures messageTable
        == old(messageTable)[m.name := (if m.name in old(messageTable) then old(messageTable)[m.name] else []) + [m]]
      ensures ready <==> |messageTable[m.name]| == size
    {
      if m.name !in messageTable {
        messageTable := messageTable[m.name := [m]];
        assert [] + [m] == [m];
      } else {
        messageTable := messageTable[m.name := messageTable[m.name] + [m]];
      }
      ready := |messageTable[m.name]| == size;
    }

    method FileRequest(m: Request, now: int) returns (ready: bool)
      modifies this`messageTable, stallInspector`uncachedTensorTable
      ensures Tables() == Record(old(Tables()), m) && (ready <==> |RequestsFor(Tables(), m.name)| == size)
      ensures TableGrown(old(stallInspector.uncachedTensorTable), stallInspector.uncachedTensorTable, now)
    {
      ready := IncrementTensorCount(m);
      stallInspector.RecordUncachedTensorStart(m.name, m.rank, now);
    }

    /** Files the requests of all ranks, rank by rank. */
    method CollectReady(lists: seq<seq<Request>>, now: int) returns (ready: seq<string>)
      modifies this`messageTable, stallInspector`uncachedTensorTable
      ensures (Tables(), ready) == Tally(old(Tables()), Concat(lists), size)
      ensures TableGrown(old(stallInspector.uncachedTensorTable), stallInspector.uncachedTensorTable, now)
    {
      hide Tally, Concat, Record;
      ghost var k := Tables();
      ready := [];
      var i := 0;
      TallyNone(k, lists, size);
      while i < |lists|
        invariant i <= |lists| && (Tables(), ready) == Tally(k, Concat(lists[..i]), size)
        invariant TableGrown(old(stallInspector.uncachedTensorTable), stallInspector.uncachedTensorTable, now)
      {
        var list := lists[i];
        var j := 0;
        assert Concat(lists[..i]) + list[..0] == Concat(lists[..i]);
        while j < |list|
          invariant j <= |list| && (Tables(), ready) == Tally(k, Concat(lists[..i]) + list[..j], size)
          invariant TableGrown(old(stallInspector.uncachedTensorTable), stallInspector.uncachedTensorTable, now)
        {
          TallyNext(k, Concat(lists[..i]), list, j, size);
          var reduce := FileRequest(list[j], now);
          if reduce { ready := ready + [list[j].name]; }
          j := j + 1;
        }
        assert list[..j] == list;
        ConcatNext(lists, i);
        i := i + 1;
      }
      assert lists[..i] == lists;
    }

    /** Builds the response for a ready tensor and clears its requests. */
    method ConstructResponse(name: string) returns (response: Response)
      requires name in messageTable && messageTable[name] != []
      requires forall m :: m in messageTable[name] ==> m.rank < |messageTable[name]|
      modifies this`messageTable, stallInspector`uncachedTensorTable
      ensures response == Validation.Construct(name, old(messageTable)[name]) && Tables() == Answer(old(Tables()), name)
      ensures TableShrunk(old(stallInspector.uncachedTensorTable), stallInspector.uncachedTensorTable)
    {
      response := Validate(name, messageTable[name]);
      messageTable := messageTable - {name};
      stallInspector.RemoveUncachedTensor(name);
    }

    method RespondAll(ready: seq<string>) returns (responses: seq<Response>, ok: bool)
      requires forall n :: n in ready && n in messageTable ==> forall m :: m in messageTable[n] ==>
        m.rank < |messageTable[n]|
      modifies this`messageTable, stallInspector`uncachedTensorTable
      ensures
        var built := Respond(old(Tables()), ready);
        ok == built.Ok? && (ok ==> built.value == (Tables(), responses))
      ensures TableShrunk(old(stallInspector.uncachedTensorTable), stallInspector.uncachedTensorTable)
    {
      hide Respond, Answer;
      ghost var k := Tables();
      responses := [];
      var i := 0;
      BuiltNone(k, ready);
      while i < |ready|
        invariant i <= |ready| && Built(k, ready, i, Tables(), responses)
        invariant forall n :: n in messageTable ==> n in old(messageTable) && messageTable[n] == old(messageTable)[n]
        invariant TableShrunk(old(stallInspector.uncachedTensorTable), stallInspector.uncachedTensorTable)
      {
        hide Built;
        BuiltNext(k, ready, i, Tables(), responses);
        if !(ready[i] in messageTable && messageTable[ready[i]] != []) { return responses, false; }
        AnswerKeeps(Tables(), ready[i]);
        var response := ConstructResponse(ready[i]);
        responses := responses + [response];
        i := i + 1;
      }
      BuiltAll(k, ready, Tables(), responses);
      ok := true;
    }

    /** Looks the common hits up without marking them as used. */
    method PeekHits(hits: set<nat>) returns (responses: seq<Response>, ok: bool)
      requires responseCache.Valid()
      ensures
        var peeked := PeekAll(responseCache.model, Ascending(hits, |responseCache.model.slots|));
        ok == peeked.Ok? && (ok ==> peeked.value == responses)
    {
      hide Represents, Live;
      ghost var c := responseCache.model;
      LiveIff(c, responseCache.list, responseCache.iters, 0);
      var bits := Ascending(hits, |responseCache.iters|);
      responses := [];
      var i := 0;
      PeekedNone(c, bits);
      while i < |bits|
        invariant i <= |bits| && Peeked(c, bits, i, responses)
      {
        hide Peeked;
        LiveIff(c, responseCache.list, responseCache.iters, bits[i]);
        PeekedNext(c, bits, i, responses);
        if !(bits[i] < |responseCache.iters| && responseCache.iters[bits[i]].Some?) { return responses, false; }
        var response := responseCache.PeekResponse(bits[i]);
        responses := responses + [response];
        i := i + 1;
      }
      PeekedAll(c, bits, responses);
      ok := true;
    }

    /** The coordinator's list: cached answers first, then the tensors that have become ready, fused. */
    method CoordinateAll(lists: seq<seq<Request>>, all: Report, limit: int, now: int, ghost w: World,
        ghost sorted: seq<Sorted>)
      returns (list: seq<Response>, ok: bool)
      requires responseCache.Valid() && |w.ranks| == |sorted| == size > 0
      requires w.coord == Tables() && w.ranks[0].table == Params() && sorted[0].cache == responseCache.model
      requires lists == seq(|sorted|, i requires 0 <= i < |sorted| => sorted[i].sent)
      requires
        var tally := Tally(w.coord, Concat(lists), size);
        forall n :: n in tally.1 ==>
          |RequestsFor(tally.0, n)| == size && forall m :: m in RequestsFor(tally.0, n) ==> m.rank < size
      modifies this`messageTable, stallInspector`uncachedTensorTable
      ensures
        var answer := Coordinate(w, sorted, all, Config(limit, false));
        ok == answer.Ok? && (ok ==> answer.value == (Tables(), list))
      ensures StartsKept(old(stallInspector.uncachedTensorTable), stallInspector.uncachedTensorTable, now)
    {
      hide Tally, Concat, Respond, PeekAll, Fuse, Represents;
      list := [];
      var ready := CollectReady(lists, now);
      var responses: seq<Response> := [];
      ok := true;
      if responseCache.capacity > 0 { responses, ok := PeekHits(all.hits); }
      if !ok { return; }
      var built: seq<Response>;
      built, ok := RespondAll(ready);
      if !ok { return; }
      var t := Params();
      if !Known(responses + built, t) { return list, false; }
      list := FuseResponses(responses + built, t, limit);
    }
  }

  lemma {:induction false} BitsBelow(c: Cache)
    requires CacheModel.Valid(c)
    ensures forall n :: n in c.bits ==> c.bits[n] < |c.slots|
  {
  }

  /** What Prepare yields with a cache, from the records that classification leaves. */
  lemma {:induction false} PreparedCached(r: Rank, input: Input, cfg: Config, isCoordinator: bool, classified: Report,
      late: set<string>)
    requires r.cache.capacity > 0 && input.overdue == late
    requires late <= (if cfg.watching then Watch(r.watched, r.queue, r.cache) else r.watched)
    requires Classified(classified, if cfg.watching then Watch(r.watched, r.queue, r.cache) else r.watched,
      Report({}, {}, false, false), r.watched, r.queue, r.cache, cfg.watching)
    ensures
      var prepared := Prepare(r, input, cfg, isCoordinator);
      var checked := cfg.watching && input.checkDue;
      var shutdown := input.shutdown || (checked && isCoordinator && input.giveUp);
      var report := if checked then Marked(classified, late, r.cache.bits) else classified;
      && (prepared.Ok? <==> !checked || forall n :: n in late ==> n in r.cache.bits)
      && (prepared.Ok? ==>
            prepared.value
              == (report.(shutdown := shutdown), if cfg.watching then Watch(r.watched, r.queue, r.cache)
              else r.watched))
  {
    hide BitsIn, AnyUncached, Watch;
    var stalled := Stalled(r, input, cfg);
    var evicted := set n | n in stalled && n in r.cache.bits :: r.cache.bits[n];
    assert forall s: set<nat> :: {} + s == s;
    if cfg.watching && input.checkDue {
      assert stalled == late;
    } else {
      assert evicted == {};
      assert BitsIn(r.queue, r.cache, Invalid) + evicted == BitsIn(r.queue, r.cache, Invalid);
    }
  }

  lemma {:induction false} EraseNext(c: Cache, bits: seq<nat>, i: nat)
    requires i < |bits|
    ensures EraseAll(c, bits[i..]) == if Live(c, bits[i]) then EraseAll(Erase(c, bits[i]), bits[i + 1..])
      else Err(MissingKey)
  {
    assert bits[i..][1..] == bits[i + 1..];
  }

  lemma {:induction false} EraseNone(c: Cache, bits: seq<nat>)
    requires bits == []
    ensures EraseAll(c, bits) == Ok(c)
  {
  }

  lemma {:induction false} SortNone(watched: set<string>, queue: seq<Request>, c: Cache, hits: set<nat>)
    ensures Kept(queue[..0], c, hits) == [] && Sent(queue[..0], c) == []
      && Unwatch(watched, queue[..0], c, hits) == watched
  {
  }

  lemma {:induction false} HasBit(c: Cache, m: Request)
    requires StateOf(m, c) == Hit
    ensures m.name in c.bits
  {
  }

  /** The first `i` hits have been taken. */
  ghost predicate Took(c: Cache, bits: seq<nat>, i: nat, now: Cache, responses: seq<Response>) {
    i <= |bits| && match GetAll(now, bits[i..])
    case Ok(v) => GetAll(c, bits) == Ok((v.0, responses + v.1))
    case Err(fault) => GetAll(c, bits) == Err(fault)
  }

  lemma {:induction false} TookNone(c: Cache, bits: seq<nat>)
    ensures Took(c, bits, 0, c, [])
  {
    assert bits[0..] == bits;
    match GetAll(c, bits)
    case Ok(v) => assert [] + v.1 == v.1;
    case Err(_) =>
  }

  lemma {:induction false} TookNext(c: Cache, bits: seq<nat>, i: nat, now: Cache, responses: seq<Response>)
    requires i < |bits| && Took(c, bits, i, now, responses)
    ensures if Live(now, bits[i]) then Took(c, bits, i + 1, Get(now, bits[i]), responses + [Peek(now, bits[i])])
      else GetAll(c, bits).Err?
  {
    assert bits[i..][1..] == bits[i + 1..];
    if Live(now, bits[i]) {
      match GetAll(Get(now, bits[i]), bits[i + 1..])
      case Ok(v) => assert responses + ([Peek(now, bits[i])] + v.1) == (responses + [Peek(now, bits[i])]) + v.1;
      case Err(_) =>
    }
  }

  lemma {:induction false} TookAll(c: Cache, bits: seq<nat>, now: Cache, responses: seq<Response>)
    requires Took(c, bits, |bits|, now, responses)
    ensures GetAll(c, bits) == Ok((now, responses))
  {
    assert bits[|bits|..] == [] && responses + [] == responses;
  }

  lemma {:induction false} PutAllAppend(c: Cache, a: seq<Response>, b: seq<Response>, t: Table)
    ensures PutAll(c, a + b, t) == if PutAll(c, a, t).Err? then PutAll(c, a, t) else PutAll(PutAll(c, a, t).value, b, t)
  {
    hide PutOne;
    if b == [] {
      assert a + b == a;
    } else {
      var n := |b| - 1;
      assert (a + b)[..|a + b| - 1] == a + b[..n];
      PutAllAppend(c, a, b[..n], t);
    }
  }

  lemma {:induction false} CachedNone(c: Cache, list: seq<Response>, size: nat, t: Table)
    ensures PutAll(c, ToCache(list[..0], size), t) == Ok(c)
  {
  }

  lemma {:induction false} CachedNext(c: Cache, list: seq<Response>, size: nat, t: Table, i: nat)
    requires i < |list|
    ensures
      var before := PutAll(c, ToCache(list[..i], size), t);
      PutAll(c, ToCache(list[..i + 1], size), t)
      == if before.Err? || !Cacheable(list[i], size) then before else PutAll(before.value, Unfuse(list[i]), t)
  {
    assert list[..i + 1][..i] == list[..i];
    var before := ToCache(list[..i], size);
    hide PutAll, Unfuse, Cacheable;
    PutAllAppend(c, before, Unfuse(list[i]), t);
    assert before + [] == before;
  }

  lemma {:induction false} CachedStops(c: Cache, list: seq<Response>, size: nat, t: Table, i: nat, n: nat)
    requires i <= n <= |list| && PutAll(c, ToCache(list[..i], size), t).Err?
    ensures PutAll(c, ToCache(list[..n], size), t).Err?
  {
    hide PutAll, ToCache, Unfuse, Cacheable;
    if i < n {
      CachedStops(c, list, size, t, i, n - 1);
      CachedNext(c, list, size, t, n - 1);
    }
  }

  lemma {:induction false} TallyNone(k: Coordinator, lists: seq<seq<Request>>, size: nat)
    ensures Tally(k, Concat(lists[..0]), size) == (k, [])
  {
  }

  lemma {:induction false} TallyNext(k: Coordinator, before: seq<Request>, list: seq<Request>, j: nat, size: nat)
    requires j < |list|
    ensures
      var tally := Tally(k, before + list[..j], size);
      var after := Record(tally.0, list[j]);
      Tally(k, before + list[..j + 1], size)
      == (after, if |RequestsFor(after, list[j].name)| == size then tally.1 + [list[j].name] else tally.1)
  {
    assert before + list[..j + 1] == (before + list[..j]) + [list[j]];
    assert ((before + list[..j]) + [list[j]])[..|before| + j] == before + list[..j];
  }

  lemma {:induction false} ConcatNext(lists: seq<seq<Request>>, i: nat)
    requires i < |lists|
    ensures Concat(lists[..i + 1]) == Concat(lists[..i]) + lists[i]
  {
    assert lists[..i + 1][..i] == lists[..i];
  }

  /** Responses for the first `i` ready names have been built. */
  ghost predicate Built(k: Coordinator, ready: seq<string>, i: nat, now: Coordinator, responses: seq<Response>) {
    i <= |ready| && match Respond(now, ready[i..])
    case Ok(v) => Respond(k, ready) == Ok((v.0, responses + v.1))
    case Err(fault) => Respond(k, ready) == Err(fault)
  }

  lemma {:induction false} BuiltNone(k: Coordinator, ready: seq<string>)
    ensures Built(k, ready, 0, k, [])
  {
    assert ready[0..] == ready;
    match Respond(k, ready)
    case Ok(v) => assert [] + v.1 == v.1;
    case Err(_) =>
  }

  lemma {:induction false} BuiltNext(k: Coordinator, ready: seq<string>, i: nat, now: Coordinator,
      responses: seq<Response>)
    requires i < |ready| && Built(k, ready, i, now, responses)
    ensures RequestsFor(now, ready[i]) == [] ==> Respond(k, ready).Err?
    ensures RequestsFor(now, ready[i]) != [] ==>
      Built(k, ready, i + 1, Answer(now, ready[i]),
        responses + [Validation.Construct(ready[i], RequestsFor(now, ready[i]))])
  {
    assert ready[i..][1..] == ready[i + 1..];
    hide Answer, Validation.Construct;
    if RequestsFor(now, ready[i]) != [] {
      var response := Validation.Construct(ready[i], RequestsFor(now, ready[i]));
      match Respond(Answer(now, ready[i]), ready[i + 1..])
      case Ok(v) => assert responses + ([response] + v.1) == (responses + [response]) + v.1;
      case Err(_) =>
    }
  }

  lemma {:induction false} BuiltAll(k: Coordinator, ready: seq<string>, now: Coordinator, responses: seq<Response>)
    requires Built(k, ready, |ready|, now, responses)
    ensures Respond(k, ready) == Ok((now, responses))
  {
    assert ready[|ready|..] == [] && responses + [] == responses;
  }

  lemma {:induction false} AnswerKeeps(k: Coordinator, name: string)
    ensures forall n :: n in Answer(k, name).messages ==>
      n in k.messages && Answer(k, name).messages[n] == k.messages[n]
  {
  }

  /** The first `i` hits have been looked up. */
  ghost predicate Peeked(c: Cache, bits: seq<nat>, i: nat, responses: seq<Response>) {
    i <= |bits| && match PeekAll(c, bits[i..])
    case Ok(v) => PeekAll(c, bits) == Ok(responses + v)
    case Err(fault) => PeekAll(c, bits) == Err(fault)
  }

  lemma {:induction false} PeekedNone(c: Cache, bits: seq<nat>)
    ensures Peeked(c, bits, 0, [])
  {
    assert bits[0..] == bits;
    match PeekAll(c, bits)
    case Ok(v) => assert [] + v == v;
    case Err(_) =>
  }

  lemma {:induction false} PeekedNext(c: Cache, bits: seq<nat>, i: nat, responses: seq<Response>)
    requires i < |bits| && Peeked(c, bits, i, responses)
    ensures if Live(c, bits[i]) then Peeked(c, bits, i + 1, responses + [Peek(c, bits[i])]) else PeekAll(c, bits).Err?
  {
    assert bits[i..][1..] == bits[i + 1..];
    if Live(c, bits[i]) {
      match PeekAll(c, bits[i + 1..])
      case Ok(v) => assert responses + ([Peek(c, bits[i])] + v) == (responses + [Peek(c, bits[i])]) + v;
      case Err(_) =>
    }
  }

  lemma {:induction false} PeekedAll(c: Cache, bits: seq<nat>, responses: seq<Response>)
    requires Peeked(c, bits, |bits|, responses)
    ensures PeekAll(c, bits) == Ok(responses)
  {
    assert bits[|bits|..] == [] && responses + [] == responses;
  }
}
