/** In which order things happen: messages, ready tensors and answers. */
module OrderProofs {
  import opened Messages
  import opened Sequences
  import opened CacheModel
  import opened Fusion
  import opened Negotiation
  import opened Invariants
  import opened RoundProofs
  import opened TallyProofs
  import opened SlowProofs
  import opened AnswerProofs
  import opened CycleTheorem
  import opened CachingProofs

  // ---------------------------------------------------------------------
  // Messages
  // ---------------------------------------------------------------------

  lemma {:induction false} SubsequenceSnoc<T(!new)>(a: seq<T>, b: seq<T>, x: T)
    requires Subsequence(a, b)
    ensures Subsequence(a, b + [x]) && Subsequence(a + [x], b + [x])
  {
    if b == [] {
      assert a + [x] == [x] && (b + [x])[1..] == [] && [x][1..] == [];
    } else {
      assert (b + [x])[1..] == b[1..] + [x];
      if a != [] {
        assert (a + [x])[1..] == a[1..] + [x];
        if a[0] == b[0] && Subsequence(a[1..], b[1..]) {
          SubsequenceSnoc(a[1..], b[1..], x);
        } else {
          SubsequenceSnoc(a, b[1..], x);
        }
      } else {
        SubsequenceSnoc(a, b[1..], x);
      }
    }
  }

  /** Messages that are kept, and messages that are sent, stay in the order in which they were queued. */
  lemma {:induction false} MessagesInOrder(queue: seq<Request>, c: Cache, hits: set<nat>)
    ensures Subsequence(Kept(queue, c, hits), queue) && Subsequence(Sent(queue, c), queue)
  {
    if queue != [] {
      var front, m := queue[..|queue| - 1], queue[|queue| - 1];
      assert queue == front + [m];
      MessagesInOrder(front, c, hits);
      SubsequenceSnoc(Kept(front, c, hits), front, m);
      SubsequenceSnoc(Sent(front, c), front, m);
    }
  }

  // ---------------------------------------------------------------------
  // Ready tensors
  // ---------------------------------------------------------------------

  lemma {:induction false} ReadyPrefix(k: Coordinator, ms: seq<Request>, size: nat, j: nat)
    requires j <= |ms|
    ensures Tally(k, ms[..j], size).1 <= Tally(k, ms, size).1
  {
    if j < |ms| {
      assert ms[..|ms| - 1][..j] == ms[..j];
      ReadyPrefix(k, ms[..|ms| - 1], size, j);
    } else {
      assert ms[..j] == ms;
    }
  }

  lemma {:induction false} FitsPrefix(k: Coordinator, ms: seq<Request>, size: nat, j: nat)
    requires Fits(k, ms, size) && j <= |ms|
    ensures Fits(k, ms[..j], size)
  {
    if j < |ms| {
      FitsFront(k, ms, size);
      assert ms[..|ms| - 1][..j] == ms[..j];
      FitsPrefix(k, ms[..|ms| - 1], size, j);
    } else {
      assert ms[..j] == ms;
    }
  }

  /** Tensors become ready in the order of their last requests: if, after the first j messages, `a` has all of its
      requests and `b` has not, `a` comes before `b`. */
  lemma {:induction false} ReadyInOrder(k: Coordinator, ms: seq<Request>, size: nat, j: nat, a: string, b: string)
    requires Fits(k, ms, size) && j <= |ms| && a in Names(ms[..j]) && b in Names(ms)
    requires |RequestsFor(k, a)| + |For(ms[..j], a)| == size
    requires b in Names(ms[..j]) ==> |RequestsFor(k, b)| + |For(ms[..j], b)| < size
    requires |RequestsFor(k, b)| + |For(ms, b)| == size
    ensures
      var ready := Tally(k, ms, size).1;
      exists x, y :: 0 <= x < y < |ready| && ready[x] == a && ready[y] == b
  {
    FitsPrefix(k, ms, size, j);
    TallyReady(k, ms[..j], size);
    TallyReady(k, ms, size);
    ReadyPrefix(k, ms, size, j);
    var early, ready := Tally(k, ms[..j], size).1, Tally(k, ms, size).1;
    var x :| 0 <= x < |early| && early[x] == a;
    var y :| 0 <= y < |ready| && ready[y] == b;
    assert ready[x] == a;
    assert forall i :: 0 <= i < |early| ==> early[i] == ready[i] && early[i] in early;
  }

  // ---------------------------------------------------------------------
  // Answers
  // ---------------------------------------------------------------------

  lemma {:induction false} PeekedInOrder(c: Cache, bits: seq<nat>)
    requires Valid(c) && forall b :: b in bits ==> Live(c, b)
    ensures PeekAll(c, bits).Ok? && Taken(c.slots, bits)
    ensures AllNames(PeekAll(c, bits).value) == NamesAt(c.slots, bits)
  {
    PeekAllEach(c, bits);
    if bits != [] {
      assert bits[0] in bits;
      PeekedInOrder(c, bits[1..]);
      var others := PeekAll(c, bits[1..]).value;
      ConsNames([Peek(c, bits[0])] + others);
      assert ([Peek(c, bits[0])] + others)[1..] == others;
      assert Taken(c.slots, bits) by {
        forall i | 0 <= i < |bits| ensures bits[i] < |c.slots| && c.slots[bits[i]].Some? { assert bits[i] in bits; }
      }
    }
  }

  /** The coordinator's list is the fusion of the cached answers in the order of their bits, followed by the ready
      tensors in the order in which they became ready. */
  lemma {:induction false} ListInOrder(w: World, cfg: Config, reports: seq<Report>, all: Report, sorted: seq<Sorted>)
    returns (rs: seq<Response>)
    requires Round(w, reports, all, sorted) && AllIdle(w) && sorted[0].cache.capacity > 0
    ensures Coordinate(w, sorted, all, cfg).Ok? && Known(rs, w.ranks[0].table)
    ensures Coordinate(w, sorted, all, cfg).value.1 == Fuse(rs, w.ranks[0].table, cfg.limit)
    ensures
      var c := sorted[0].cache;
      var bits := Ascending(all.hits, |c.slots|);
      && Taken(c.slots, bits)
      && AllNames(rs) == NamesAt(c.slots, bits) + Tally(w.coord, Concat(AllSent(sorted)), |w.ranks|).1
  {
    var c, tally := sorted[0].cache, Tally(w.coord, Concat(AllSent(sorted)), |w.ranks|);
    SlowAnswers(w, reports, all, sorted);
    var a, b := PeekAll(c, HitList(all, c)).value, Respond(tally.0, tally.1).value;
    rs := a + b.1;
    AnswersKnown(w, sorted, rs, 0);
    CoordinateIs(w, sorted, all, cfg, a, b.0, b.1);
    HitsLive(w, reports, all, sorted);
    StoreSorted(w, reports, all, sorted, 0);
    PeekedInOrder(c, HitList(all, c));
    BuiltInOrder(w, reports, all, sorted, tally);
    AllNamesAppend(a, b.1);
  }

  lemma {:induction false} BuiltInOrder(w: World, reports: seq<Report>, all: Report, sorted: seq<Sorted>,
      tally: (Coordinator, seq<string>))
    requires Round(w, reports, all, sorted) && AllIdle(w)
    requires tally == Tally(w.coord, Concat(AllSent(sorted)), |w.ranks|)
    ensures Respond(tally.0, tally.1).Ok? && AllNames(Respond(tally.0, tally.1).value.1) == tally.1
  {
    ReadyNames(w, reports, all, sorted);
    forall n | n in tally.1 ensures RequestsFor(tally.0, n) != [] {
      TallyMessages(w.coord, Concat(AllSent(sorted)), |w.ranks|, n);
      FiledAll(w, reports, all, sorted, n);
    }
    RespondNamed(tally.0, tally.1);
  }
}
