/**
  Agreement on cache bits.  Every rank packs its hits and flags into 64-bit words, all ranks take
  the bitwise AND of these vectors, and, if some rank saw invalid entries, the bitwise OR of a
  second vector.  Flags travel inverted, and hits are shifted past them.
 */
module BitSync {
  import opened Negotiation

  const BITS := 64
  const STATUS_BITS := 3
  const WIDTH := 0x1_0000_0000

  const SHOULD_SHUT_DOWN := 0
  const UNCACHED_IN_QUEUE := 1
  const INVALID_IN_QUEUE := 2

  // ---------------------------------------------------------------------
  // Words, least significant bit first
  // ---------------------------------------------------------------------

  type Word = w: seq<bool> | |w| == 64 witness seq(64, i => false)

  function Fill(b: bool): (w: Word)
    ensures forall j :: 0 <= j < 64 ==> w[j] == b
  {
    seq(64, i => b)
  }

  function OneHot(k: nat): (w: Word)
    ensures forall j :: 0 <= j < 64 ==> w[j] == (j == k)
  {
    seq(64, i => i == k)
  }

  function And(v: Word, w: Word): (r: Word)
    ensures forall j :: 0 <= j < 64 ==> r[j] == (v[j] && w[j])
  {
    seq(64, i requires 0 <= i < 64 => v[i] && w[i])
  }

  function Or(v: Word, w: Word): (r: Word)
    ensures forall j :: 0 <= j < 64 ==> r[j] == (v[j] || w[j])
  {
    seq(64, i requires 0 <= i < 64 => v[i] || w[i])
  }

  function Xor(v: Word, w: Word): (r: Word)
    ensures forall j :: 0 <= j < 64 ==> r[j] == (v[j] != w[j])
  {
    seq(64, i requires 0 <= i < 64 => v[i] != w[i])
  }

  function Not(w: Word): (r: Word)
    ensures forall j :: 0 <= j < 64 ==> r[j] == !w[j]
  {
    seq(64, i requires 0 <= i < 64 => !w[i])
  }

  function FirstSetFrom(w: Word, k: nat): (idx: nat)
    requires k <= 64
    ensures idx == 0 ==> forall j :: k <= j < 64 ==> !w[j]
    ensures idx != 0 ==> k < idx <= 64 && w[idx - 1] && forall j :: k <= j < idx - 1 ==> !w[j]
    decreases 64 - k
  {
    if k == 64 then 0 else if w[k] then k + 1 else FirstSetFrom(w, k + 1)
  }

  /** One more than the index of the lowest set bit, 0 if there is none. */
  function FindFirstSet(w: Word): nat {
    FirstSetFrom(w, 0)
  }

  /** An unsigned 32-bit number: bits below the offset wrap around. */
  function U32(x: int): nat {
    x % WIDTH
  }

  function Bit(words: seq<Word>, k: nat): bool
    requires k < 64 * |words|
  {
    words[k / 64][k % 64]
  }

  /** The place in the vector of the bit that is decoded as `x`. */
  function Place(x: nat, offset: nat): (k: nat)
    ensures k < WIDTH
  {
    U32(x + offset)
  }

  lemma {:induction false} PlaceOf(x: nat, k: nat, offset: nat)
    requires x < WIDTH && k < WIDTH && offset < WIDTH
    ensures Place(x, offset) == k <==> x == U32(k - offset)
  {
  }

  /** `x` is among the decoded numbers, which are `offset` lower than their places. */
  predicate Carries(words: seq<Word>, offset: nat, x: nat) {
    x < WIDTH && Place(x, offset) < 64 * |words| && Bit(words, Place(x, offset))
  }

  /** Adds the numbers of a word's bits, lowest first. */
  method DecodeWord(w: Word, shift: nat, offset: nat, except: set<nat>, into: set<nat>) returns (bits: set<nat>)
    requires shift + 64 <= WIDTH && offset < WIDTH
    ensures forall x: nat :: x in bits <==>
      x in into || (x < WIDTH && shift <= Place(x, offset) < shift + 64 && w[Place(x, offset) - shift] && x !in except)
  {
    bits := into;
    var ll := w;
    ghost var low := 0;
    while ll != Fill(false)
      invariant low <= 64
      invariant forall j :: 0 <= j < 64 ==> ll[j] == (low <= j && w[j])
      invariant forall x: nat :: x in bits <==>
        x in into || (x < WIDTH && shift <= Place(x, offset) < shift + low && w[Place(x, offset) - shift]
          && x !in except)
      decreases 64 - low
    {
      var idx := FindFirstSet(ll);
      assert idx != 0;
      var bit := U32(shift + idx - 1 - offset);
      forall x: nat | x < WIDTH ensures Place(x, offset) == shift + idx - 1 <==> x == bit {
        PlaceOf(x, shift + idx - 1, offset);
      }
      if bit !in except { bits := bits + {bit}; }
      ll := And(ll, Not(OneHot(idx - 1)));
      low := idx;
    }
    if low < 64 {
      forall j | low <= j < 64 ensures !w[j] { assert !Fill(false)[j]; }
    }
  }

  /** Goes through the words and collects the numbers of their bits. */
  method Decode(words: seq<Word>, offset: nat, except: set<nat>) returns (bits: set<nat>)
    requires 64 * |words| <= WIDTH && offset < WIDTH
    ensures forall x: nat :: x in bits <==> Carries(words, offset, x) && x !in except
  {
    bits := {};
    var i := 0;
    while i < |words|
      invariant i <= |words|
      invariant forall x: nat :: x in bits <==> Carries(words[..i], offset, x) && x !in except
    {
      bits := DecodeWord(words[i], 64 * i, offset, except, bits);
      forall x: nat | x < WIDTH
        ensures Carries(words[..i + 1], offset, x) <==>
          Carries(words[..i], offset, x)
            || (64 * i <= Place(x, offset) < 64 * i + 64 && words[i][Place(x, offset) - 64 * i])
      {
        CarriesNext(words, offset, i, x);
      }
      i := i + 1;
    }
    assert words[..i] == words;
  }

  lemma {:induction false} CarriesNext(words: seq<Word>, offset: nat, i: nat, x: nat)
    requires i < |words| && x < WIDTH
    ensures Carries(words[..i + 1], offset, x) <==>
      Carries(words[..i], offset, x)
        || (64 * i <= Place(x, offset) < 64 * i + 64 && words[i][Place(x, offset) - 64 * i])
  {
    var k := Place(x, offset);
    assert k == 64 * (k / 64) + k % 64;
  }

  // ---------------------------------------------------------------------
  // Vectors
  // ---------------------------------------------------------------------

  /** Words needed for the flags and `n` cache bits. */
  function WordCount(n: nat): nat {
    (n + STATUS_BITS + BITS - 1) / BITS
  }

  function SetBit(words: seq<Word>, k: nat): (r: seq<Word>)
    requires k < 64 * |words|
    ensures |r| == |words| && forall j: nat :: j < 64 * |words| ==> Bit(r, j) == (Bit(words, j) || j == k)
  {
    var r := words[k / 64 := Or(words[k / 64], OneHot(k % 64))];
    assert forall j: nat :: j < 64 * |words| ==> j == 64 * (j / 64) + j % 64;
    r
  }

  function FlipBit(words: seq<Word>, k: nat): (r: seq<Word>)
    requires k < 64 * |words|
    ensures |r| == |words| && forall j: nat :: j < 64 * |words| ==> Bit(r, j) == (Bit(words, j) != (j == k))
  {
    var r := words[k / 64 := Xor(words[k / 64], OneHot(k % 64))];
    assert forall j: nat :: j < 64 * |words| ==> j == 64 * (j / 64) + j % 64;
    r
  }

  function AndVectors(v: seq<Word>, w: seq<Word>): (r: seq<Word>)
    requires |v| == |w|
    ensures |r| == |v| && forall k: nat :: k < 64 * |v| ==> Bit(r, k) == (Bit(v, k) && Bit(w, k))
  {
    seq(|v|, i requires 0 <= i < |v| => And(v[i], w[i]))
  }

  function OrVectors(v: seq<Word>, w: seq<Word>): (r: seq<Word>)
    requires |v| == |w|
    ensures |r| == |v| && forall k: nat :: k < 64 * |v| ==> Bit(r, k) == (Bit(v, k) || Bit(w, k))
  {
    seq(|v|, i requires 0 <= i < |v| => Or(v[i], w[i]))
  }

  function NotVector(v: seq<Word>): (r: seq<Word>)
    ensures |r| == |v| && forall k: nat :: k < 64 * |v| ==> Bit(r, k) == !Bit(v, k)
  {
    seq(|v|, i requires 0 <= i < |v| => Not(v[i]))
  }

  predicate SameLength(vs: seq<seq<Word>>) {
    forall i :: 0 <= i < |vs| ==> |vs[i]| == |vs[0]|
  }

  /** The bitwise AND that all ranks receive. */
  function AndAll(vs: seq<seq<Word>>): (r: seq<Word>)
    requires vs != [] && SameLength(vs)
    ensures |r| == |vs[0]|
    ensures forall k: nat :: k < 64 * |r| ==> (Bit(r, k) <==> forall i :: 0 <= i < |vs| ==> Bit(vs[i], k))
  {
    if |vs| == 1 then vs[0] else AndVectors(AndAll(vs[..|vs| - 1]), vs[|vs| - 1])
  }

  /** The bitwise OR that all ranks receive. */
  function OrAll(vs: seq<seq<Word>>): (r: seq<Word>)
    requires vs != [] && SameLength(vs)
    ensures |r| == |vs[0]|
    ensures forall k: nat :: k < 64 * |r| ==> (Bit(r, k) <==> exists i :: 0 <= i < |vs| && Bit(vs[i], k))
  {
    if |vs| == 1 then vs[0] else OrVectors(OrAll(vs[..|vs| - 1]), vs[|vs| - 1])
  }

  // ---------------------------------------------------------------------
  // What is sent, and what comes out
  // ---------------------------------------------------------------------

  /** A rank's report is about bits of the cache, and all bit numbers fit an int. */
  predicate Fits(r: Report, n: nat) {
    n + STATUS_BITS + BITS < 0x8000_0000 && (forall b :: b in r.hits ==> b < n)
      && (forall b :: b in r.invalid ==> b < n)
  }

  /** What a rank sends at place k. */
  predicate Sends(r: Report, k: nat) {
    || (k == SHOULD_SHUT_DOWN && !r.shutdown)
    || (k == UNCACHED_IN_QUEUE && !r.uncached)
    || (k == INVALID_IN_QUEUE && r.invalid == {})
    || Offers(r, k)
  }

  /** A valid hit, in its place. */
  predicate Offers(r: Report, k: nat) {
    k >= STATUS_BITS && k - STATUS_BITS in r.hits && k - STATUS_BITS !in r.invalid
  }

  /** The vector for the AND: flags and hits, then, for the timeline, the hits inverted. */
  ghost predicate Packed(words: seq<Word>, r: Report, n: nat, timeline: bool) {
    var count := WordCount(n);
    && |words| == (if timeline then 2 * count else count)
    && (forall k: nat :: k < 64 * count ==> Bit(words, k) == Sends(r, k))
    && (timeline ==> forall k: nat :: k < 64 * count ==> Bit(words, 64 * count + k) == !Offers(r, k))
  }

  /** The vector for the OR: invalid bits, not shifted. */
  ghost predicate PackedInvalid(words: seq<Word>, r: Report, n: nat) {
    |words| == WordCount(n) && forall k: nat :: k < 64 * |words| ==> Bit(words, k) == (k in r.invalid)
  }

  ghost predicate AllPacked(vs: seq<seq<Word>>, reports: seq<Report>, n: nat, timeline: bool) {
    |vs| == |reports| && forall i :: 0 <= i < |vs| ==> Fits(reports[i], n) && Packed(vs[i], reports[i], n, timeline)
  }

  ghost predicate AllPackedInvalid(vs: seq<seq<Word>>, reports: seq<Report>, n: nat) {
    |vs| == |reports| && forall i :: 0 <= i < |vs| ==> Fits(reports[i], n) && PackedInvalid(vs[i], reports[i], n)
  }

  /** Bits hit, and valid, on some rank and invalid on none. */
  function TimelineBits(reports: seq<Report>): set<nat> {
    set i, b | 0 <= i < |reports| && b in reports[i].hits
      && (forall j :: 0 <= j < |reports| ==> b !in reports[j].invalid) :: b
  }

  predicate IsStatus(x: nat) {
    x == U32(SHOULD_SHUT_DOWN - STATUS_BITS) || x == U32(UNCACHED_IN_QUEUE - STATUS_BITS)
      || x == U32(INVALID_IN_QUEUE - STATUS_BITS)
  }

  /** The hits and flags of `all` can be read off the vector. */
  ghost predicate Decodes(words: seq<Word>, n: nat, all: Report) {
    var first := words[..if WordCount(n) <= |words| then WordCount(n) else |words|];
    && WordCount(n) <= |words|
    && (forall x: nat :: Carries(first, STATUS_BITS, x) && !IsStatus(x) <==> x in all.hits)
    && (Carries(first, STATUS_BITS, U32(SHOULD_SHUT_DOWN - STATUS_BITS)) <==> !all.shutdown)
    && (Carries(first, STATUS_BITS, U32(UNCACHED_IN_QUEUE - STATUS_BITS)) <==> !all.uncached)
    && (Carries(first, STATUS_BITS, U32(INVALID_IN_QUEUE - STATUS_BITS)) <==> all.invalid == {})
  }

  /** Every rank decodes the common valid hits, and reads off the flags. */
  lemma {:induction false} HitsAgree(vs: seq<seq<Word>>, reports: seq<Report>, n: nat, timeline: bool)
    requires reports != [] && AllPacked(vs, reports, n, timeline)
    ensures SameLength(vs) && Decodes(AndAll(vs), n, Combine(reports))
    ensures |AndAll(vs)| == (if timeline then 2 * WordCount(n) else WordCount(n))
  {
    forall i | 0 <= i < |vs| ensures |vs[i]| == |vs[0]| { assert Packed(vs[i], reports[i], n, timeline); }
    var count, all := WordCount(n), Combine(reports);
    var anded := AndAll(vs);
    var words := anded[..count];
    assert Packed(vs[0], reports[0], n, timeline);
    assert forall i :: 0 <= i < |reports| ==> Fits(reports[i], n);
    forall k: nat | k < 64 * count ensures Bit(words, k) <==> forall i :: 0 <= i < |reports| ==> Sends(reports[i], k) {
      assert Bit(words, k) == Bit(anded, k);
      assert forall i :: 0 <= i < |vs| ==> Packed(vs[i], reports[i], n, timeline);
    }
    forall x: nat ensures Carries(words, STATUS_BITS, x) && !IsStatus(x) <==> x in all.hits {
      HitAgrees(words, reports, n, x);
    }
    FlagsAgree(words, reports, n);
  }

  lemma {:induction false} HitAgrees(words: seq<Word>, reports: seq<Report>, n: nat, x: nat)
    requires reports != [] && |words| == WordCount(n) && forall i :: 0 <= i < |reports| ==> Fits(reports[i], n)
    requires forall k: nat :: k < 64 * |words| ==>
      (Bit(words, k) <==> forall i :: 0 <= i < |reports| ==> Sends(reports[i], k))
    ensures Carries(words, STATUS_BITS, x) && !IsStatus(x) <==> x in Combine(reports).hits
  {
    if x < WIDTH && !IsStatus(x) {
      var k := Place(x, STATUS_BITS);
      assert k >= STATUS_BITS && k == x + STATUS_BITS;
      if k < 64 * |words| && Bit(words, k) {
        forall i | 0 <= i < |reports|
          ensures x in reports[i].hits && x !in reports[i].invalid
        {
          assert Sends(reports[i], k);
        }
      }
      if x in Combine(reports).hits {
        assert x in reports[0].hits && Fits(reports[0], n);
        forall i | 0 <= i < |reports| ensures Sends(reports[i], k) { }
      }
    }
    if x in Combine(reports).hits { assert x in reports[0].hits && Fits(reports[0], n); }
  }

  lemma {:induction false} FlagsAgree(words: seq<Word>, reports: seq<Report>, n: nat)
    requires reports != [] && |words| == WordCount(n)
    requires forall k: nat :: k < 64 * |words| ==>
      (Bit(words, k) <==> forall i :: 0 <= i < |reports| ==> Sends(reports[i], k))
    ensures
      var all := Combine(reports);
      && (Carries(words, STATUS_BITS, U32(SHOULD_SHUT_DOWN - STATUS_BITS)) <==> !all.shutdown)
      && (Carries(words, STATUS_BITS, U32(UNCACHED_IN_QUEUE - STATUS_BITS)) <==> !all.uncached)
      && (Carries(words, STATUS_BITS, U32(INVALID_IN_QUEUE - STATUS_BITS)) <==> all.invalid == {})
  {
    var all := Combine(reports);
    assert Place(U32(SHOULD_SHUT_DOWN - STATUS_BITS), STATUS_BITS) == SHOULD_SHUT_DOWN;
    assert Place(U32(UNCACHED_IN_QUEUE - STATUS_BITS), STATUS_BITS) == UNCACHED_IN_QUEUE;
    assert Place(U32(INVALID_IN_QUEUE - STATUS_BITS), STATUS_BITS) == INVALID_IN_QUEUE;
    assert Bit(words, SHOULD_SHUT_DOWN) <==> forall i :: 0 <= i < |reports| ==> !reports[i].shutdown by {
      assert forall i :: 0 <= i < |reports| ==> Sends(reports[i], SHOULD_SHUT_DOWN) == !reports[i].shutdown;
    }
    assert Bit(words, UNCACHED_IN_QUEUE) <==> forall i :: 0 <= i < |reports| ==> !reports[i].uncached by {
      assert forall i :: 0 <= i < |reports| ==> Sends(reports[i], UNCACHED_IN_QUEUE) == !reports[i].uncached;
    }
    assert Bit(words, INVALID_IN_QUEUE) <==> forall i :: 0 <= i < |reports| ==> reports[i].invalid == {} by {
      assert forall i :: 0 <= i < |reports| ==> (Sends(reports[i], INVALID_IN_QUEUE) <==> reports[i].invalid == {});
    }
    assert forall i, b :: 0 <= i < |reports| && b in reports[i].invalid ==> b in all.invalid;
  }

  /** Every rank decodes the union of the invalid bits. */
  lemma {:induction false} InvalidAgree(vs: seq<seq<Word>>, reports: seq<Report>, n: nat)
    requires reports != [] && AllPackedInvalid(vs, reports, n)
    ensures SameLength(vs) && |OrAll(vs)| == WordCount(n)
    ensures forall x: nat :: Carries(OrAll(vs), 0, x) <==> x in Combine(reports).invalid
  {
    forall i | 0 <= i < |vs| ensures |vs[i]| == |vs[0]| { assert PackedInvalid(vs[i], reports[i], n); }
    assert Fits(reports[0], n) && |vs[0]| == WordCount(n);
    var words := OrAll(vs);
    forall x: nat ensures Carries(words, 0, x) <==> x in Combine(reports).invalid { InvalidAgrees(vs, reports, n, x); }
  }

  lemma {:induction false} InvalidOne(v: seq<Word>, r: Report, n: nat, x: nat)
    requires Fits(r, n) && PackedInvalid(v, r, n)
    ensures x in r.invalid ==> x < 64 * |v| && Bit(v, x)
    ensures x < 64 * |v| && Bit(v, x) ==> x in r.invalid
  {
  }

  lemma {:induction false} InvalidCombined(reports: seq<Report>, x: nat)
    requires reports != []
    ensures x in Combine(reports).invalid <==> exists i :: 0 <= i < |reports| && x in reports[i].invalid
  {
  }

  lemma {:induction false} OredCarries(vs: seq<seq<Word>>, x: nat)
    requires vs != [] && SameLength(vs) && 64 * |vs[0]| <= WIDTH
    ensures Carries(OrAll(vs), 0, x) <==>
      x < 64 * |vs[0]| && exists i :: 0 <= i < |vs| && |vs[i]| == |vs[0]| && Bit(vs[i], x)
  {
    if x < 64 * |vs[0]| && Bit(OrAll(vs), x) {
      var i :| 0 <= i < |vs| && Bit(vs[i], x);
      assert |vs[i]| == |vs[0]|;
    }
  }

  lemma {:induction false} InvalidAgrees(vs: seq<seq<Word>>, reports: seq<Report>, n: nat, x: nat)
    requires reports != [] && AllPackedInvalid(vs, reports, n) && SameLength(vs) && |vs[0]| == WordCount(n)
    ensures Carries(OrAll(vs), 0, x) <==> x in Combine(reports).invalid
  {
    assert Fits(reports[0], n);
    InvalidCombined(reports, x);
    OredCarries(vs, x);
    hide Combine, OrAll, Carries, Bit, Fits, PackedInvalid;
    forall i | 0 <= i < |vs| ensures x in reports[i].invalid <==> x < 64 * |vs[0]| && Bit(vs[i], x) {
      InvalidOne(vs[i], reports[i], n, x);
    }
  }

  /** Every rank finds the same started negotiations in the second half of the vector. */
  lemma {:induction false} TimelineAgrees(vs: seq<seq<Word>>, reports: seq<Report>, n: nat)
    requires reports != [] && AllPacked(vs, reports, n, true)
    ensures SameLength(vs) && |AndAll(vs)| == 2 * WordCount(n)
    ensures forall x: nat ::
      Carries(NotVector(AndAll(vs)[WordCount(n)..]), STATUS_BITS, x) && x !in Combine(reports).invalid <==>
        x in TimelineBits(reports)
  {
    forall i | 0 <= i < |vs| ensures |vs[i]| == |vs[0]| { assert Packed(vs[i], reports[i], n, true); }
    assert Fits(reports[0], n) && |vs[0]| == 2 * WordCount(n);
    var count := WordCount(n);
    var anded := AndAll(vs);
    var half := anded[count..];
    forall k: nat | k < 64 * count
      ensures Bit(NotVector(half), k) <==> exists i :: 0 <= i < |reports| && Offers(reports[i], k)
    {
      HalfBit(anded, count, k);
      assert Bit(NotVector(half), k) == !Bit(anded, 64 * count + k);
      assert forall i :: 0 <= i < |vs| ==>
        Packed(vs[i], reports[i], n, true) && Bit(vs[i], 64 * count + k) == !Offers(reports[i], k);
    }
    forall x: nat
      ensures Carries(NotVector(half), STATUS_BITS, x) && x !in Combine(reports).invalid <==> x in TimelineBits(reports)
    {
      StartedAgrees(NotVector(half), reports, n, x);
    }
  }

  lemma {:induction false} HalfBit(words: seq<Word>, count: nat, k: nat)
    requires |words| == 2 * count && k < 64 * count
    ensures Bit(words[count..], k) == Bit(words, 64 * count + k)
  {
    assert (64 * count + k) / 64 == count + k / 64 && (64 * count + k) % 64 == k % 64;
  }

  lemma {:induction false} StartedAgrees(words: seq<Word>, reports: seq<Report>, n: nat, x: nat)
    requires |words| == WordCount(n) && forall i :: 0 <= i < |reports| ==> Fits(reports[i], n)
    requires forall k: nat :: k < 64 * |words| ==>
      (Bit(words, k) <==> exists i :: 0 <= i < |reports| && Offers(reports[i], k))
    requires reports != []
    ensures Carries(words, STATUS_BITS, x) && x !in Combine(reports).invalid <==> x in TimelineBits(reports)
  {
    if Carries(words, STATUS_BITS, x) && x !in Combine(reports).invalid {
      var k := Place(x, STATUS_BITS);
      var i :| 0 <= i < |reports| && Offers(reports[i], k);
      assert k == x + STATUS_BITS;
      assert x in reports[i].hits;
    }
    if x in TimelineBits(reports) {
      var i :| 0 <= i < |reports| && x in reports[i].hits;
      assert Fits(reports[i], n) && Place(x, STATUS_BITS) == x + STATUS_BITS;
      assert Offers(reports[i], x + STATUS_BITS);
    }
  }
}
