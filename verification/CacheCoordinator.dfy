/**
  One rank's part in the agreement on cache bits, in place.  The two collectives divide it into the
  steps before, between and after them; `SyncAll` runs these steps on all ranks.
 */
module CacheCoordinators {
  import opened Negotiation
  import opened BitSync

  /** The cleared vector: zeros, and ones for the timeline. */
  function Blank(count: nat, timeline: bool): (words: seq<Word>)
    ensures |words| == (if timeline then 2 * count else count)
    ensures forall p: nat :: p < 64 * |words| ==> Bit(words, p) == (p >= 64 * count)
  {
    seq(count, i => Fill(false)) + (if timeline then seq(count, i => Fill(true)) else [])
  }

  /** The content of place `p` when the hits in `done` have been entered. */
  ghost predicate Entered(r: Report, done: set<nat>, count: nat, p: nat) {
    if p < STATUS_BITS then Sends(r, p)
    else if p < 64 * count then p - STATUS_BITS in done
    else !(p - 64 * count >= STATUS_BITS && p - 64 * count - STATUS_BITS in done)
  }

  ghost predicate Filled(words: seq<Word>, r: Report, done: set<nat>, count: nat, timeline: bool) {
    && |words| == (if timeline then 2 * count else count)
    && forall p: nat :: p < 64 * |words| ==> Bit(words, p) == Entered(r, done, count, p)
  }

  lemma {:induction false} FillNone(words: seq<Word>, r: Report, count: nat, timeline: bool)
    requires |words| == (if timeline then 2 * count else count) && count > 0
    requires forall p: nat :: p < 64 * |words| ==>
      Bit(words, p) == (p >= 64 * count || (p < STATUS_BITS && Sends(r, p)))
    ensures Filled(words, r, {}, count, timeline)
  {
  }

  lemma {:induction false} FillNext(words: seq<Word>, r: Report, done: set<nat>, count: nat, timeline: bool, bit: nat)
    requires Filled(words, r, done, count, timeline) && bit + STATUS_BITS < 64 * count && bit !in done
    ensures
      var once := SetBit(words, bit + STATUS_BITS);
      Filled(if timeline then FlipBit(once, 64 * count + bit + STATUS_BITS) else once, r, done + {bit}, count, timeline)
  {
  }

  lemma {:induction false} FilledPacked(words: seq<Word>, r: Report, n: nat, timeline: bool)
    requires Filled(words, r, r.hits - r.invalid, WordCount(n), timeline)
    ensures Packed(words, r, n, timeline)
  {
    var count := WordCount(n);
    forall k: nat | k < 64 * count ensures Bit(words, k) == Sends(r, k) {
      assert Entered(r, r.hits - r.invalid, count, k) == Sends(r, k);
    }
    if timeline {
      forall k: nat | k < 64 * count ensures Bit(words, 64 * count + k) == !Offers(r, k) {
        assert Entered(r, r.hits - r.invalid, count, 64 * count + k) == !Offers(r, k);
      }
    }
  }

  class CacheCoordinator {
    const numActiveBits: nat
    var cacheHits: set<nat>
    var invalidBits: set<nat>
    var timelineBits: set<nat>
    var shouldShutDown: bool
    var uncachedInQueue: bool
    var invalidInQueue: bool
    var bitvector: seq<Word>

    ghost function View(): Report
      reads this
    {
      Report(cacheHits, invalidBits, uncachedInQueue, shouldShutDown)
    }

    ghost predicate Valid()
      reads this
    {
      Fits(View(), numActiveBits) && (invalidInQueue <==> invalidBits != {})
    }

    constructor (numActiveBits: nat)
      requires numActiveBits + STATUS_BITS + BITS < 0x8000_0000
      ensures Valid() && this.numActiveBits == numActiveBits && View() == Report({}, {}, false, false)
        && timelineBits == {}
    {
      this.numActiveBits := numActiveBits;
      cacheHits, invalidBits, timelineBits := {}, {}, {};
      shouldShutDown, uncachedInQueue, invalidInQueue := false, false, false;
      bitvector := [];
    }

    method RecordHit(bit: nat)
      requires Valid() && bit < numActiveBits
      modifies this`cacheHits
      ensures Valid() && View() == old(View()).(hits := old(View()).hits + {bit})
    {
      cacheHits := cacheHits + {bit};
    }

    method RecordInvalidBit(bit: nat)
      requires Valid() && bit < numActiveBits
      modifies this`invalidBits, this`invalidInQueue
      ensures Valid() && View() == old(View()).(invalid := old(View()).invalid + {bit})
    {
      invalidBits := invalidBits + {bit};
      invalidInQueue := true;
      assert bit in invalidBits;
    }

    method SetShouldShutDown(shouldShutDown: bool)
      requires Valid()
      modifies this`shouldShutDown
      ensures Valid() && View() == old(View()).(shutdown := shouldShutDown)
    {
      this.shouldShutDown := shouldShutDown;
    }

    method SetUncachedInQueue(uncachedInQueue: bool)
      requires Valid()
      modifies this`uncachedInQueue
      ensures Valid() && View() == old(View()).(uncached := uncachedInQueue)
    {
      this.uncachedInQueue := uncachedInQueue;
    }

    /** Fills the vector for the first collective. */
    method PackHits(timeline: bool)
      requires Valid()
      modifies this`bitvector, this`cacheHits
      ensures Packed(bitvector, old(View()), numActiveBits, timeline)
    {
      hide Filled, Entered, SetBit, FlipBit, Blank, Packed, OneHot, Or, Xor;
      ghost var r := View();
      var nbits := numActiveBits + STATUS_BITS;
      var count := (nbits + BITS - 1) / BITS;
      bitvector := Blank(count, timeline);
      if !shouldShutDown { bitvector := SetBit(bitvector, SHOULD_SHUT_DOWN); }
      if !uncachedInQueue { bitvector := SetBit(bitvector, UNCACHED_IN_QUEUE); }
      if !invalidInQueue { bitvector := SetBit(bitvector, INVALID_IN_QUEUE); }

      cacheHits := cacheHits - invalidBits;
      ghost var valid := cacheHits;
      var rest := cacheHits;
      FillNone(bitvector, r, count, timeline);
      assert valid - rest == {};
      while rest != {}
        modifies this`bitvector
        invariant rest <= valid && |bitvector| == (if timeline then 2 * count else count)
        invariant Filled(bitvector, r, valid - rest, count, timeline)
        decreases rest
      {
        var bit :| bit in rest;
        FillNext(bitvector, r, valid - rest, count, timeline, bit);
        assert valid - (rest - {bit}) == (valid - rest) + {bit};
        bitvector := SetBit(bitvector, bit + STATUS_BITS);
        if timeline { bitvector := FlipBit(bitvector, 64 * count + bit + STATUS_BITS); }
        rest := rest - {bit};
      }
      assert valid - rest == valid;
      FilledPacked(bitvector, r, numActiveBits, timeline);
    }

    /** Reads the common hits and the flags from the result of the first collective. */
    method UnpackHits(words: seq<Word>)
      requires WordCount(numActiveBits) <= |words| && 64 * WordCount(numActiveBits) <= WIDTH
      modifies this`bitvector, this`cacheHits, this`shouldShutDown, this`uncachedInQueue, this`invalidInQueue
      ensures bitvector == words
      ensures
        var first := words[..WordCount(numActiveBits)];
        && (forall x: nat :: x in cacheHits <==> Carries(first, STATUS_BITS, x) && !IsStatus(x))
        && (shouldShutDown <==>
          old(shouldShutDown) || !Carries(first, STATUS_BITS, U32(SHOULD_SHUT_DOWN - STATUS_BITS)))
        && (uncachedInQueue <==>
          old(uncachedInQueue) || !Carries(first, STATUS_BITS, U32(UNCACHED_IN_QUEUE - STATUS_BITS)))
        && (invalidInQueue <==>
          old(invalidInQueue) || !Carries(first, STATUS_BITS, U32(INVALID_IN_QUEUE - STATUS_BITS)))
    {
      bitvector := words;
      cacheHits := Decode(bitvector[..WordCount(numActiveBits)], STATUS_BITS, {});
      if U32(SHOULD_SHUT_DOWN - STATUS_BITS) !in cacheHits { shouldShutDown := true; }
      cacheHits := cacheHits - {U32(SHOULD_SHUT_DOWN - STATUS_BITS)};
      if U32(UNCACHED_IN_QUEUE - STATUS_BITS) !in cacheHits { uncachedInQueue := true; }
      cacheHits := cacheHits - {U32(UNCACHED_IN_QUEUE - STATUS_BITS)};
      if U32(INVALID_IN_QUEUE - STATUS_BITS) !in cacheHits { invalidInQueue := true; }
      cacheHits := cacheHits - {U32(INVALID_IN_QUEUE - STATUS_BITS)};
    }

    /** Refills the first half of the vector for the second collective. */
    method PackInvalid()
      requires Fits(View(), numActiveBits) && WordCount(numActiveBits) <= |bitvector|
      modifies this`bitvector
      ensures |bitvector| == old(|bitvector|)
        && bitvector[WordCount(numActiveBits)..] == old(bitvector)[WordCount(numActiveBits)..]
      ensures PackedInvalid(bitvector[..WordCount(numActiveBits)], View(), numActiveBits)
    {
      var count := WordCount(numActiveBits);
      var words := Blank(count, false);
      var rest := invalidBits;
      while rest != {}
        invariant rest <= invalidBits && |words| == count
        invariant forall k: nat :: k < 64 * count ==> Bit(words, k) == (k in invalidBits - rest)
        decreases rest
      {
        var bit :| bit in rest;
        words := SetBit(words, bit);
        rest := rest - {bit};
      }
      bitvector := words + bitvector[count..];
      assert bitvector[..count] == words;
    }

    /** Reads the invalid bits from the result of the second collective. */
    method UnpackInvalid(words: seq<Word>)
      requires |words| == WordCount(numActiveBits) <= |bitvector| && 64 * |words| <= WIDTH
      modifies this`bitvector, this`invalidBits
      ensures |bitvector| == old(|bitvector|) && bitvector[|words|..] == old(bitvector)[|words|..]
      ensures forall x: nat :: x in invalidBits <==> Carries(words, 0, x)
    {
      bitvector := words + bitvector[|words|..];
      invalidBits := Decode(bitvector[..|words|], 0, {});
      assert bitvector[..|words|] == words;
    }

    /** Collects the negotiations started on some rank from the second half of the first result. */
    method UnpackTimeline()
      requires |bitvector| == 2 * WordCount(numActiveBits) && 64 * WordCount(numActiveBits) <= WIDTH
      modifies this`timelineBits
      ensures forall x: nat :: x in timelineBits <==>
        x in old(timelineBits)
          || (Carries(NotVector(bitvector[WordCount(numActiveBits)..]), STATUS_BITS, x) && x !in invalidBits)
    {
      var found := Decode(NotVector(bitvector[WordCount(numActiveBits)..]), STATUS_BITS, invalidBits);
      timelineBits := timelineBits + found;
    }
  }

  // ---------------------------------------------------------------------
  // All ranks together
  // ---------------------------------------------------------------------

  /** Different ranks' coordinators, for equally many bits. */
  ghost predicate Peers(cs: seq<CacheCoordinator>, n: nat) {
    cs != [] && (forall i, j :: 0 <= i < j < |cs| ==> cs[i] != cs[j]) && forall i :: 0 <= i < |cs| ==>
      cs[i].numActiveBits == n
  }

  ghost function Views(cs: seq<CacheCoordinator>): (reports: seq<Report>)
    reads cs
    ensures |reports| == |cs| && forall i :: 0 <= i < |cs| ==> reports[i] == cs[i].View()
  {
    if cs == [] then [] else Views(cs[..|cs| - 1]) + [cs[|cs| - 1].View()]
  }

  /** A rank that has packed its hits still remembers the rest of its report. */
  ghost predicate Remembers(c: CacheCoordinator, r: Report)
    reads c
  {
    && c.invalidBits == r.invalid && c.shouldShutDown == r.shutdown && c.uncachedInQueue == r.uncached
    && (c.invalidInQueue <==> r.invalid != {})
  }

  method PackAll(cs: seq<CacheCoordinator>, n: nat, timeline: bool, ghost reports: seq<Report>)
    returns (vs: seq<seq<Word>>)
    requires Peers(cs, n) && |reports| == |cs|
    requires forall i :: 0 <= i < |cs| ==> cs[i].Valid() && cs[i].View() == reports[i]
    modifies cs
    ensures AllPacked(vs, reports, n, timeline)
    ensures forall i :: 0 <= i < |cs| ==> Remembers(cs[i], reports[i]) && cs[i].timelineBits == old(cs[i].timelineBits)
  {
    vs := [];
    var i := 0;
    while i < |cs|
      invariant i <= |cs| && |vs| == i
      invariant forall j :: 0 <= j < i ==>
        Fits(reports[j], n) && Packed(vs[j], reports[j], n, timeline) && Remembers(cs[j], reports[j])
      invariant forall j :: i <= j < |cs| ==> cs[j].Valid() && cs[j].View() == reports[j]
      invariant forall j :: 0 <= j < |cs| ==> cs[j].timelineBits == old(cs[j].timelineBits)
    {
      hide Packed, Fits;
      cs[i].PackHits(timeline);
      vs := vs + [cs[i].bitvector];
      i := i + 1;
    }
  }

  /** The hits and flags are agreed on; invalid bits are still a rank's own. */
  ghost predicate HalfAgreed(c: CacheCoordinator, all: Report, own: Report, words: seq<Word>)
    reads c
  {
    && c.cacheHits == all.hits && c.shouldShutDown == all.shutdown && c.uncachedInQueue == all.uncached
    && (c.invalidInQueue <==> all.invalid != {}) && c.invalidBits == own.invalid && c.bitvector == words
  }

  /** No flag or invalid bit of the rank's own report gets lost. */
  ghost predicate Covers(all: Report, own: Report) {
    own.invalid <= all.invalid && (own.shutdown ==> all.shutdown) && (own.uncached ==> all.uncached)
  }

  method UnpackOne(c: CacheCoordinator, words: seq<Word>, ghost all: Report, ghost own: Report)
    requires Remembers(c, own) && 64 * WordCount(c.numActiveBits) <= WIDTH
    requires Covers(all, own)
    requires Decodes(words, c.numActiveBits, all)
    modifies c
    ensures HalfAgreed(c, all, own, words) && c.timelineBits == old(c.timelineBits)
  {
    hide Carries, IsStatus;
    c.UnpackHits(words);
    assert forall x: nat :: x in c.cacheHits <==> x in all.hits;
  }

  method ShareHits(cs: seq<CacheCoordinator>, n: nat, words: seq<Word>, ghost all: Report, ghost reports: seq<Report>)
    requires Peers(cs, n) && |reports| == |cs| && 64 * WordCount(n) <= WIDTH && Decodes(words, n, all)
    requires forall i :: 0 <= i < |cs| ==> Remembers(cs[i], reports[i]) && Covers(all, reports[i])
    modifies cs
    ensures forall i :: 0 <= i < |cs| ==>
      HalfAgreed(cs[i], all, reports[i], words) && cs[i].timelineBits == old(cs[i].timelineBits)
  {
    hide Decodes, HalfAgreed, Remembers, Covers;
    var i := 0;
    while i < |cs|
      invariant i <= |cs|
      invariant forall j :: 0 <= j < i ==> HalfAgreed(cs[j], all, reports[j], words)
      invariant forall j :: i <= j < |cs| ==> Remembers(cs[j], reports[j])
      invariant forall j :: 0 <= j < |cs| ==> cs[j].timelineBits == old(cs[j].timelineBits)
    {
      UnpackOne(cs[i], words, all, reports[i]);
      i := i + 1;
    }
  }

  method UnpackAll(cs: seq<CacheCoordinator>, n: nat, timeline: bool, vs: seq<seq<Word>>, ghost reports: seq<Report>)
    returns (words: seq<Word>)
    requires Peers(cs, n) && |reports| == |cs| && AllPacked(vs, reports, n, timeline)
    requires forall i :: 0 <= i < |cs| ==> Remembers(cs[i], reports[i])
    modifies cs
    ensures SameLength(vs) && words == AndAll(vs) && |words| == (if timeline then 2 * WordCount(n) else WordCount(n))
    ensures forall i :: 0 <= i < |cs| ==>
      HalfAgreed(cs[i], Combine(reports), reports[i], words) && cs[i].timelineBits == old(cs[i].timelineBits)
  {
    HitsAgree(vs, reports, n, timeline);
    assert Fits(reports[0], n);
    words := AndAll(vs);
    ghost var all := Combine(reports);
    forall j | 0 <= j < |cs| ensures Covers(all, reports[j]) { ReportWithin(reports, j); }
    hide Packed, AllPacked, Combine, Decodes, AndAll, HalfAgreed, Remembers, SameLength, Covers;
    ShareHits(cs, n, words, all, reports);
  }

  /** No flag or invalid bit gets lost in combining. */
  lemma {:induction false} ReportWithin(reports: seq<Report>, i: nat)
    requires i < |reports|
    ensures reports[i].shutdown ==> Combine(reports).shutdown
    ensures reports[i].uncached ==> Combine(reports).uncached
    ensures reports[i].invalid <= Combine(reports).invalid
  {
  }

  /** Everything but the timeline is agreed on. */
  ghost predicate Agreed(c: CacheCoordinator, all: Report)
    reads c
  {
    c.cacheHits == all.hits && c.shouldShutDown == all.shutdown && c.uncachedInQueue == all.uncached
      && c.invalidBits == all.invalid
  }

  /** The second half of the vector is still the first collective's. */
  ghost predicate KeepsHalf(c: CacheCoordinator, n: nat, words: seq<Word>)
    reads c
  {
    WordCount(n) <= |c.bitvector| == |words| && c.bitvector[WordCount(n)..] == words[WordCount(n)..]
  }

  ghost predicate OwnInvalid(c: CacheCoordinator, all: Report, own: Report)
    reads c
  {
    c.View() == all.(invalid := own.invalid)
  }

  method CollectInvalid(cs: seq<CacheCoordinator>, n: nat, ghost words: seq<Word>, ghost all: Report,
      ghost reports: seq<Report>)
    returns (vs: seq<seq<Word>>)
    requires Peers(cs, n) && |reports| == |cs| && WordCount(n) <= |words|
    requires forall i :: 0 <= i < |cs| ==>
      HalfAgreed(cs[i], all, reports[i], words) && Fits(reports[i], n) && all.hits <= reports[i].hits
    modifies cs
    ensures AllPackedInvalid(vs, reports, n)
    ensures forall i :: 0 <= i < |cs| ==>
      KeepsHalf(cs[i], n, words) && OwnInvalid(cs[i], all, reports[i]) && cs[i].timelineBits == old(cs[i].timelineBits)
  {
    vs := [];
    var i := 0;
    while i < |cs|
      invariant i <= |cs| == |reports| && |vs| == i
      invariant forall j :: 0 <= j < i ==> PackedInvalid(vs[j], reports[j], n)
      invariant forall j :: 0 <= j < i ==> KeepsHalf(cs[j], n, words)
      invariant forall j :: 0 <= j < |cs| ==> OwnInvalid(cs[j], all, reports[j])
      invariant forall j :: i <= j < |cs| ==> cs[j].bitvector == words
      invariant forall j :: 0 <= j < |cs| ==> cs[j].timelineBits == old(cs[j].timelineBits)
    {
      hide PackedInvalid;
      PackedReport(cs[i].View(), reports[i], n);
      cs[i].PackInvalid();
      SameInvalid(cs[i].bitvector[..WordCount(n)], cs[i].View(), reports[i], n);
      vs := vs + [cs[i].bitvector[..WordCount(n)]];
      i := i + 1;
    }
  }

  lemma {:induction false} PackedReport(view: Report, r: Report, n: nat)
    requires Fits(r, n) && view.hits <= r.hits && view.invalid == r.invalid
    ensures Fits(view, n)
  {
  }

  lemma {:induction false} SameInvalid(words: seq<Word>, view: Report, r: Report, n: nat)
    requires PackedInvalid(words, view, n) && view.invalid == r.invalid
    ensures PackedInvalid(words, r, n)
  {
  }

  method ShareInvalidOne(c: CacheCoordinator, ghost words: seq<Word>, ored: seq<Word>, ghost all: Report,
      ghost own: Report)
    requires |ored| == WordCount(c.numActiveBits) && 64 * |ored| <= WIDTH
    requires KeepsHalf(c, c.numActiveBits, words) && OwnInvalid(c, all, own)
    requires forall x: nat :: Carries(ored, 0, x) <==> x in all.invalid
    modifies c
    ensures KeepsHalf(c, c.numActiveBits, words) && Agreed(c, all) && c.timelineBits == old(c.timelineBits)
  {
    c.UnpackInvalid(ored);
    assert c.invalidBits == all.invalid;
  }

  method ShareInvalid(cs: seq<CacheCoordinator>, n: nat, ghost words: seq<Word>, vs: seq<seq<Word>>,
      ghost reports: seq<Report>)
    requires Peers(cs, n) && |reports| == |cs| && AllPackedInvalid(vs, reports, n) && 64 * WordCount(n) <= WIDTH
    requires forall i :: 0 <= i < |cs| ==> KeepsHalf(cs[i], n, words) && OwnInvalid(cs[i], Combine(reports), reports[i])
    modifies cs
    ensures forall i :: 0 <= i < |cs| ==>
      KeepsHalf(cs[i], n, words) && Agreed(cs[i], Combine(reports)) && cs[i].timelineBits == old(cs[i].timelineBits)
  {
    InvalidAgree(vs, reports, n);
    var ored := OrAll(vs);
    hide Combine, OrAll, AllPackedInvalid, PackedInvalid, Carries, KeepsHalf, Agreed, OwnInvalid;
    ShareOred(cs, n, words, ored, Combine(reports), reports);
  }

  method ShareOred(cs: seq<CacheCoordinator>, n: nat, ghost words: seq<Word>, ored: seq<Word>, ghost all: Report,
      ghost reports: seq<Report>)
    requires Peers(cs, n) && |reports| == |cs| && |ored| == WordCount(n) && 64 * WordCount(n) <= WIDTH
    requires forall i :: 0 <= i < |cs| ==> KeepsHalf(cs[i], n, words) && OwnInvalid(cs[i], all, reports[i])
    requires forall x: nat :: Carries(ored, 0, x) <==> x in all.invalid
    modifies cs
    ensures forall i :: 0 <= i < |cs| ==>
      KeepsHalf(cs[i], n, words) && Agreed(cs[i], all) && cs[i].timelineBits == old(cs[i].timelineBits)
  {
    hide Carries, KeepsHalf, Agreed, OwnInvalid;
    var i := 0;
    while i < |cs|
      invariant i <= |cs|
      invariant forall j :: 0 <= j < i ==> Agreed(cs[j], all)
      invariant forall j :: i <= j < |cs| ==> OwnInvalid(cs[j], all, reports[j])
      invariant forall j :: 0 <= j < |cs| ==>
        KeepsHalf(cs[j], n, words) && cs[j].timelineBits == old(cs[j].timelineBits)
    {
      ShareInvalidOne(cs[i], words, ored, all, reports[i]);
      i := i + 1;
    }
  }

  method ShareTimelineOne(c: CacheCoordinator, ghost words: seq<Word>, ghost all: Report, ghost started: set<nat>)
    requires |words| == 2 * WordCount(c.numActiveBits) && 64 * WordCount(c.numActiveBits) <= WIDTH
    requires KeepsHalf(c, c.numActiveBits, words) && Agreed(c, all)
    requires forall x: nat ::
      Carries(NotVector(words[WordCount(c.numActiveBits)..]), STATUS_BITS, x) && x !in all.invalid <==> x in started
    modifies c
    ensures KeepsHalf(c, c.numActiveBits, words) && Agreed(c, all) && c.timelineBits == old(c.timelineBits) + started
  {
    hide Carries;
    c.UnpackTimeline();
    assert c.timelineBits == old(c.timelineBits) + started;
  }

  method ShareTimeline(cs: seq<CacheCoordinator>, n: nat, vs: seq<seq<Word>>, ghost reports: seq<Report>)
    requires Peers(cs, n) && |reports| == |cs| && AllPacked(vs, reports, n, true) && SameLength(vs)
      && 64 * WordCount(n) <= WIDTH
    requires |AndAll(vs)| == 2 * WordCount(n)
    requires forall i :: 0 <= i < |cs| ==> KeepsHalf(cs[i], n, AndAll(vs)) && Agreed(cs[i], Combine(reports))
    modifies cs
    ensures forall i :: 0 <= i < |cs| ==>
      Agreed(cs[i], Combine(reports)) && cs[i].timelineBits == old(cs[i].timelineBits) + TimelineBits(reports)
  {
    ghost var all, started, words := Combine(reports), TimelineBits(reports), AndAll(vs);
    TimelineAgrees(vs, reports, n);
    hide Combine, TimelineBits, AllPacked, Packed, Carries, AndAll, KeepsHalf, Agreed;
    var i := 0;
    while i < |cs|
      invariant i <= |cs|
      invariant forall j :: 0 <= j < |cs| ==> KeepsHalf(cs[j], n, words) && Agreed(cs[j], all)
      invariant forall j :: 0 <= j < i ==> cs[j].timelineBits == old(cs[j].timelineBits) + started
      invariant forall j :: i <= j < |cs| ==> cs[j].timelineBits == old(cs[j].timelineBits)
    {
      ShareTimelineOne(cs[i], words, all, started);
      i := i + 1;
    }
  }

  /** All ranks come out with the combined report, and with the same started negotiations. */
  method SyncAll(cs: seq<CacheCoordinator>, n: nat, timeline: bool)
    requires Peers(cs, n) && forall i :: 0 <= i < |cs| ==> cs[i].Valid()
    modifies cs
    ensures forall i :: 0 <= i < |cs| ==> cs[i].View() == Combine(old(Views(cs)))
    ensures timeline ==> forall i :: 0 <= i < |cs| ==>
      cs[i].timelineBits == old(cs[i].timelineBits) + TimelineBits(old(Views(cs)))
    ensures !timeline ==> forall i :: 0 <= i < |cs| ==> cs[i].timelineBits == old(cs[i].timelineBits)
  {
    ghost var reports := Views(cs);
    ghost var all := Combine(reports);
    assert cs[0].Valid() && 64 * WordCount(n) <= WIDTH;
    var vs := PackAll(cs, n, timeline, reports);
    var words := UnpackAll(cs, n, timeline, vs, reports);
    hide Combine, TimelineBits, Packed, AndAll;
    assert HalfAgreed(cs[0], all, reports[0], words);
    if cs[0].invalidInQueue {
      forall i | 0 <= i < |cs| ensures Fits(reports[i], n) && all.hits <= reports[i].hits { HitsWithin(reports, i); }
      var invalid := CollectInvalid(cs, n, words, all, reports);
      ShareInvalid(cs, n, words, invalid, reports);
    } else {
      forall i | 0 <= i < |cs| ensures Agreed(cs[i], all) {
        assert HalfAgreed(cs[i], all, reports[i], words);
        ReportWithin(reports, i);
      }
    }
    if timeline { ShareTimeline(cs, n, vs, reports); }
    assert forall i :: 0 <= i < |cs| ==> Agreed(cs[i], all);
  }

  lemma {:induction false} HitsWithin(reports: seq<Report>, i: nat)
    requires i < |reports|
    ensures Combine(reports).hits <= reports[i].hits
  {
  }
}
