/**
  Runs of the negotiation: tensors are submitted, cycles are held and agreed responses are
  performed, in any order the program allows.  `Inv` is what holds between any two steps.
 */
module Invariants {
  import opened Messages
  import opened Sequences
  import opened CacheModel
  import opened Fusion
  import opened Negotiation

  function Names(ms: seq<Request>): set<string> {
    set m | m in ms :: m.name
  }

  /** Ranks whose request for `n` the coordinator holds. */
  function Waiters(k: Coordinator, n: string): set<nat> {
    set m | m in RequestsFor(k, n) :: m.rank
  }

  function RanksOf(ms: seq<Request>): (ranks: seq<nat>)
    ensures |ranks| == |ms|
    ensures forall i :: 0 <= i < |ms| ==> ranks[i] == ms[i].rank
  {
    if ms == [] then [] else RanksOf(ms[..|ms| - 1]) + [ms[|ms| - 1].rank]
  }

  ghost predicate DistinctNames(ms: seq<Request>) {
    forall i, j :: 0 <= i < j < |ms| ==> ms[i].name != ms[j].name
  }

  ghost predicate DistinctRanks(ms: seq<Request>) {
    forall i, j :: 0 <= i < j < |ms| ==> ms[i].rank != ms[j].rank
  }

  /** Queued requests come from this rank, describe its own tensors and have different names. */
  ghost predicate QueueInv(r: Rank, id: nat) {
    && DistinctNames(r.queue)
    && forall m :: m in r.queue ==> m.rank == id && m.name in r.table && r.table[m.name] == ParamsOf(m)
  }

  /** Cached responses are reductions agreed on by all ranks, with this rank's device at its place. */
  ghost predicate StoreInv(c: Cache, id: nat, size: nat) {
    && id < size
    && forall n :: n in c.store ==>
      && Cacheable(c.store[n].response, size)
      && c.store[n].response.sizes == []
      && c.store[n].response.devices[id] == c.store[n].params.device
  }

  /** A tensor in the table is queued, or filed with the coordinator, or about to be performed: exactly one of these. */
  ghost predicate Accounted(r: Rank, id: nat, k: Coordinator) {
    && Distinct(AllNames(r.pending))
    && (forall n :: n in r.table <==> n in Names(r.queue) || id in Waiters(k, n) || n in AllNames(r.pending))
    && (forall n :: n in Names(r.queue) ==> id !in Waiters(k, n) && n !in AllNames(r.pending))
    && (forall n :: n in AllNames(r.pending) ==> id !in Waiters(k, n))
  }

  ghost predicate RankInv(r: Rank, id: nat, k: Coordinator, size: nat) {
    && QueueInv(r, id)
    && Valid(r.cache) && !r.cache.outdated
    && StoreInv(r.cache, id, size)
    && Accounted(r, id, k)
  }

  /** What the coordinator holds for one name: some, not all, ranks' requests, one from each. */
  ghost predicate FiledInv(w: World, n: string) {
    var ms := RequestsFor(w.coord, n);
    && 0 < |ms| < |w.ranks|
    && DistinctRanks(ms)
    && (forall m :: m in ms ==>
      && m.name == n && m.rank < |w.ranks|
      && n in w.ranks[m.rank].table && w.ranks[m.rank].table[n] == ParamsOf(m))
  }

  /** The stall inspector's table lists the names and ranks of the message table. */
  ghost predicate TablesMatch(k: Coordinator) {
    && k.waiting.Keys == k.messages.Keys
    && forall n :: n in k.messages ==> k.waiting[n] == RanksOf(k.messages[n])
  }

  /** Equal recency order, bit numbers, responses, types and shapes; only devices may differ. */
  ghost predicate SameCache(a: Cache, b: Cache) {
    && a.capacity == b.capacity && a.order == b.order && a.bits == b.bits && a.slots == b.slots
      && a.outdated == b.outdated
    && a.store.Keys == b.store.Keys
    && forall n :: n in a.store ==> SameEntry(a.store[n], b.store[n])
  }

  ghost predicate SameEntry(e: Entry, f: Entry) {
    e.response == f.response && SameTensor(e.params, f.params)
  }

  ghost predicate Lockstep(w: World) {
    forall i :: 0 <= i < |w.ranks| ==> w.ranks != [] && SameCache(w.ranks[0].cache, w.ranks[i].cache)
  }

  ghost predicate Inv(w: World) {
    && w.ranks != []
    && (forall i :: 0 <= i < |w.ranks| ==> RankInv(w.ranks[i], i, w.coord, |w.ranks|))
    && Lockstep(w)
    && TablesMatch(w.coord)
    && (forall n :: n in w.coord.messages ==> FiledInv(w, n) && n !in w.ranks[0].cache.bits)
  }

  // ---------------------------------------------------------------------
  // Cache operations keep ranks in lockstep
  // ---------------------------------------------------------------------

  lemma {:induction false} EraseSame(a: Cache, b: Cache, bit: nat)
    requires SameCache(a, b) && Live(a, bit)
    ensures Live(b, bit) && SameCache(Erase(a, bit), Erase(b, bit))
  {
  }

  lemma {:induction false} EraseAllSame(a: Cache, b: Cache, bits: seq<nat>)
    requires SameCache(a, b)
    ensures EraseAll(a, bits).Ok? == EraseAll(b, bits).Ok?
    ensures EraseAll(a, bits).Ok? ==> SameCache(EraseAll(a, bits).value, EraseAll(b, bits).value)
    decreases |bits|
  {
    if bits != [] && Live(a, bits[0]) {
      EraseSame(a, b, bits[0]);
      EraseAllSame(Erase(a, bits[0]), Erase(b, bits[0]), bits[1..]);
    }
  }

  /** Survivors of an erase keep their bits and entries. */
  ghost predicate Survives(c: Cache, d: Cache, gone: seq<nat>) {
    && d.capacity == c.capacity && |d.slots| == |c.slots|
    && (forall n :: n in d.bits <==> n in c.bits && c.bits[n] !in gone)
    && (forall n :: n in d.bits ==> n in c.store && n in d.store && d.bits[n] == c.bits[n] && d.store[n] == c.store[n])
  }

  lemma {:induction false} EraseKeepsLive(c: Cache, bit: nat, other: nat)
    requires Valid(c) && Live(c, bit) && Live(c, other) && other != bit
    ensures Live(Erase(c, bit), other)
  {
  }

  lemma {:induction false} EraseAllLive(c: Cache, bits: seq<nat>)
    requires Valid(c) && Distinct(bits)
    requires forall b :: b in bits ==> Live(c, b)
    ensures EraseAll(c, bits).Ok? && Valid(EraseAll(c, bits).value)
    ensures Survives(c, EraseAll(c, bits).value, bits)
    decreases |bits|
  {
    if bits != [] {
      var d := Erase(c, bits[0]);
      EraseValid(c, bits[0]);
      assert bits[0] !in bits[1..];
      forall b | b in bits[1..] ensures Live(d, b) {
        EraseKeepsLive(c, bits[0], b);
      }
      EraseAllLive(d, bits[1..]);
      EraseStep(c, d, EraseAll(d, bits[1..]).value, bits);
    }
  }

  lemma {:induction false} EraseStep(c: Cache, d: Cache, e: Cache, bits: seq<nat>)
    requires Valid(c) && bits != [] && Live(c, bits[0]) && d == Erase(c, bits[0]) && Survives(d, e, bits[1..])
    ensures Survives(c, e, bits)
  {
    assert forall b :: b in bits <==> b == bits[0] || b in bits[1..];
  }
}
