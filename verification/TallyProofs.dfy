/** Counting requests at the coordinator. */
module TallyProofs {
  import opened Messages
  import opened Sequences
  import opened CacheModel
  import opened Negotiation
  import opened Invariants
  import opened CycleProofs
  import opened Validation

  /** The requests for one name, in order of arrival. */
  function For(ms: seq<Request>, n: string): (r: seq<Request>)
    ensures forall m :: m in r <==> m in ms && m.name == n
  {
    if ms == [] then []
    else
      var front, m := ms[..|ms| - 1], ms[|ms| - 1];
      assert forall x :: x in ms <==> x in front || x == m;
      For(front, n) + (if m.name == n then [m] else [])
  }

  lemma {:induction false} TallyMessages(k: Coordinator, ms: seq<Request>, size: nat, n: string)
    ensures RequestsFor(Tally(k, ms, size).0, n) == RequestsFor(k, n) + For(ms, n)
    ensures n in Tally(k, ms, size).0.messages <==> n in k.messages || n in Names(ms)
  {
    if ms != [] {
      NamesSplit(ms);
      TallyMessages(k, ms[..|ms| - 1], size, n);
    }
  }

  lemma {:induction false} RanksOfAppend(ms: seq<Request>, m: Request)
    ensures RanksOf(ms + [m]) == RanksOf(ms) + [m.rank]
  {
  }

  lemma {:induction false} RecordMatches(k: Coordinator, m: Request)
    requires TablesMatch(k)
    ensures TablesMatch(Record(k, m))
  {
    RanksOfAppend(RequestsFor(k, m.name), m);
  }

  /** The stall inspector's table follows the message table. */
  lemma {:induction false} TallyMatches(k: Coordinator, ms: seq<Request>, size: nat)
    requires TablesMatch(k)
    ensures TablesMatch(Tally(k, ms, size).0)
  {
    if ms != [] {
      TallyMatches(k, ms[..|ms| - 1], size);
      RecordMatches(Tally(k, ms[..|ms| - 1], size).0, ms[|ms| - 1]);
    }
  }

  /** No name is asked for more than `size` times, counting what is already filed. */
  ghost predicate Fits(k: Coordinator, ms: seq<Request>, size: nat) {
    forall n :: n in Names(ms) ==> |RequestsFor(k, n)| < size && |RequestsFor(k, n)| + |For(ms, n)| <= size
  }

  lemma {:induction false} FitsFront(k: Coordinator, ms: seq<Request>, size: nat)
    requires ms != [] && Fits(k, ms, size)
    ensures Fits(k, ms[..|ms| - 1], size)
  {
    NamesSplit(ms);
    forall n | n in Names(ms[..|ms| - 1])
      ensures |RequestsFor(k, n)| < size && |RequestsFor(k, n)| + |For(ms[..|ms| - 1], n)| <= size
    {
      assert |For(ms[..|ms| - 1], n)| <= |For(ms, n)|;
    }
  }

  /** A name becomes ready with its last request, once. */
  lemma {:induction false} TallyReady(k: Coordinator, ms: seq<Request>, size: nat)
    requires Fits(k, ms, size)
    ensures Distinct(Tally(k, ms, size).1)
    ensures forall n :: n in Tally(k, ms, size).1 <==> n in Names(ms) && |RequestsFor(k, n)| + |For(ms, n)| == size
  {
    if ms != [] {
      var front, m := ms[..|ms| - 1], ms[|ms| - 1];
      FitsFront(k, ms, size);
      NamesSplit(ms);
      TallyReady(k, front, size);
      TallyMessages(k, ms, size, m.name);
      assert m.name in Names(ms);
      assert |For(ms, m.name)| == |For(front, m.name)| + 1;
      assert m.name !in Tally(k, front, size).1;
      var ready := Tally(k, ms, size).1;
      forall n ensures n in ready <==> n in Names(ms) && |RequestsFor(k, n)| + |For(ms, n)| == size {
        if n != m.name {
          assert For(ms, n) == For(front, n);
          assert n in ready <==> n in Tally(k, front, size).1;
        }
      }
    }
  }

  /** Part i holds requests of rank i, with different names. */
  ghost predicate ByRank(parts: seq<seq<Request>>) {
    forall i :: 0 <= i < |parts| ==> DistinctNames(parts[i]) && forall m :: m in parts[i] ==> m.rank == i
  }

  lemma {:induction false} ForNone(ms: seq<Request>, n: string)
    requires n !in Names(ms)
    ensures For(ms, n) == []
  {
    if ms != [] {
      NamesSplit(ms);
      ForNone(ms[..|ms| - 1], n);
    }
  }

  lemma {:induction false} ForOne(ms: seq<Request>, m: Request)
    requires DistinctNames(ms) && m in ms
    ensures For(ms, m.name) == [m]
  {
    var front, last := ms[..|ms| - 1], ms[|ms| - 1];
    NamesSplit(ms);
    FrontDistinct(ms);
    if m == last {
      ForNone(front, m.name);
    } else {
      ForOne(front, m);
    }
  }

  lemma {:induction false} ForAppend(a: seq<Request>, b: seq<Request>, n: string)
    ensures For(a + b, n) == For(a, n) + For(b, n)
  {
    if b == [] {
      assert a + b == a;
    } else {
      assert (a + b)[..|a + b| - 1] == a + b[..|b| - 1];
      ForAppend(a, b[..|b| - 1], n);
    }
  }

  lemma {:induction false} ConcatMembers(parts: seq<seq<Request>>)
    ensures forall m :: m in Concat(parts) <==> exists i :: 0 <= i < |parts| && m in parts[i]
  {
    if parts != [] {
      ConcatMembers(parts[..|parts| - 1]);
      forall m | m in Concat(parts) ensures exists i :: 0 <= i < |parts| && m in parts[i] {
        if m in Concat(parts[..|parts| - 1]) {
          var i :| 0 <= i < |parts| - 1 && m in parts[..|parts| - 1][i];
          assert m in parts[i];
        } else {
          assert m in parts[|parts| - 1];
        }
      }
      forall m, i | 0 <= i < |parts| && m in parts[i] ensures m in Concat(parts) {
        if i < |parts| - 1 { assert m in parts[..|parts| - 1][i]; }
      }
    }
  }

  /** A rank with different names in its list has at most one request for a name. */
  lemma {:induction false} ForAtMostOne(ms: seq<Request>, n: string)
    requires DistinctNames(ms)
    ensures For(ms, n) == [] || exists m :: m in ms && For(ms, n) == [m]
  {
    if n in Names(ms) {
      var m := NameOwner(ms, n);
      ForOne(ms, m);
    } else {
      ForNone(ms, n);
    }
  }

  /** Every rank that sends a name sends it once. */
  lemma {:induction false} ConcatRanks(parts: seq<seq<Request>>, n: string)
    requires ByRank(parts)
    ensures DistinctRanks(For(Concat(parts), n))
    ensures forall m :: m in For(Concat(parts), n) ==> m.rank < |parts| && m in parts[m.rank]
  {
    if parts != [] {
      var front, last := parts[..|parts| - 1], parts[|parts| - 1];
      assert ByRank(front);
      ConcatRanks(front, n);
      ForAppend(Concat(front), last, n);
      ForAtMostOne(last, n);
      assert forall m :: m in last ==> m.rank == |front|;
      AppendLast(For(Concat(front), n), For(last, n), front, last);
      assert parts == front + [last];
    }
  }

  lemma {:induction false} AppendLast(a: seq<Request>, b: seq<Request>, front: seq<seq<Request>>, last: seq<Request>)
    requires DistinctRanks(a) && forall m :: m in a ==> m.rank < |front| && m in front[m.rank]
    requires b == [] || exists m :: m in last && b == [m]
    requires forall m :: m in last ==> m.rank == |front|
    ensures DistinctRanks(a + b) && forall m :: m in a + b ==> m.rank < |front| + 1 && m in (front + [last])[m.rank]
  {
    if b == [] {
      assert a + b == a;
    } else {
      var m :| m in last && b == [m];
      AppendRank(a, m);
    }
  }

  lemma {:induction false} AppendRank(a: seq<Request>, m: Request)
    requires DistinctRanks(a) && forall x :: x in a ==> x.rank != m.rank
    ensures DistinctRanks(a + [m])
  {
    forall i, j | 0 <= i < j < |a + [m]| ensures (a + [m])[i].rank != (a + [m])[j].rank {
      if j == |a| { assert a[i] in a; }
    }
  }

  function RankSet(ms: seq<Request>): set<nat> {
    set m | m in ms :: m.rank
  }

  lemma {:induction false} RankSetSize(ms: seq<Request>)
    requires DistinctRanks(ms)
    ensures |RankSet(ms)| == |ms|
  {
    if ms != [] {
      var front, m := ms[..|ms| - 1], ms[|ms| - 1];
      assert ms == front + [m];
      RankSetSize(front);
      assert forall x :: x in front ==> x.rank != m.rank;
      assert RankSet(ms) == RankSet(front) + {m.rank};
    }
  }

  function Below(n: nat): (s: set<nat>)
    ensures forall i: nat :: i in s <==> i < n
  {
    if n == 0 then {} else Below(n - 1) + {n - 1}
  }

  lemma {:induction false} BelowSize(n: nat)
    ensures |Below(n)| == n
  {
    if n > 0 {
      BelowSize(n - 1);
      assert Below(n) == Below(n - 1) + {n - 1};
    }
  }

  /** Requests of different ranks: at most one each, and `size` of them only when every rank has asked. */
  lemma {:induction false} AllRanks(ms: seq<Request>, size: nat)
    requires DistinctRanks(ms) && forall m :: m in ms ==> m.rank < size
    ensures |ms| <= size
    ensures |ms| == size <==> RankSet(ms) == Below(size)
  {
    RankSetSize(ms);
    BelowSize(size);
    SubsetSize(RankSet(ms), Below(size));
  }

  lemma {:induction false} ReadyStep(k: Coordinator, ready: seq<string>)
    requires ready != [] && Distinct(ready) && forall n :: n in ready ==> RequestsFor(k, n) != []
    ensures Distinct(ready[1..]) && ready[0] !in ready[1..]
    ensures forall n :: n in ready[1..] ==> RequestsFor(Answer(k, ready[0]), n) == RequestsFor(k, n) != []
    ensures RequestsFor(k, ready[0]) != []
  {
    assert ready[0] in ready;
  }

  lemma {:induction false} LessOne<V>(m: map<string, V>, names: seq<string>)
    requires names != []
    ensures m - {names[0]} - (set n | n in names[1..]) == m - (set n | n in names)
  {
    assert names == [names[0]] + names[1..];
    assert (set n | n in names) == {names[0]} + (set n | n in names[1..]);
  }

  /** Every ready name is answered; only those names leave the tables. */
  lemma {:induction false} RespondOk(k: Coordinator, ready: seq<string>)
    requires Distinct(ready) && forall n :: n in ready ==> RequestsFor(k, n) != []
    ensures Respond(k, ready).Ok?
    ensures Respond(k, ready).value.0
      == Coordinator(k.messages - (set n | n in ready), k.waiting - (set n | n in ready))
    decreases |ready|
  {
    if ready == [] {
      assert k == Coordinator(k.messages - {}, k.waiting - {});
    } else {
      ReadyStep(k, ready);
      RespondOk(Answer(k, ready[0]), ready[1..]);
      LessOne(k.messages, ready);
      LessOne(k.waiting, ready);
    }
  }

  /** One response for each ready name, in order. */
  ghost predicate EachBuilt(k: Coordinator, ready: seq<string>, rs: seq<Response>) {
    && |rs| == |ready|
    && forall i :: 0 <= i < |ready| ==>
      RequestsFor(k, ready[i]) != [] && rs[i] == Construct(ready[i], RequestsFor(k, ready[i]))
  }

  lemma {:induction false} EachBuiltCons(k: Coordinator, ready: seq<string>, rs: seq<Response>)
    requires ready != [] && rs != [] && RequestsFor(k, ready[0]) != []
      && rs[0] == Construct(ready[0], RequestsFor(k, ready[0]))
    requires forall n :: n in ready[1..] ==> RequestsFor(Answer(k, ready[0]), n) == RequestsFor(k, n)
    requires EachBuilt(Answer(k, ready[0]), ready[1..], rs[1..])
    ensures EachBuilt(k, ready, rs)
  {
    hide Construct, RequestsFor, Answer;
    forall i | 0 <= i < |ready|
      ensures RequestsFor(k, ready[i]) != [] && rs[i] == Construct(ready[i], RequestsFor(k, ready[i]))
    {
      if i > 0 { assert ready[i] == ready[1..][i - 1] && rs[i] == rs[1..][i - 1]; }
    }
  }

  /** The responses come in the order in which the names became ready. */
  lemma {:induction false} RespondEach(k: Coordinator, ready: seq<string>)
    requires Distinct(ready) && forall n :: n in ready ==> RequestsFor(k, n) != []
    requires Respond(k, ready).Ok?
    ensures EachBuilt(k, ready, Respond(k, ready).value.1)
    decreases |ready|
  {
    hide Construct;
    if ready != [] {
      ReadyStep(k, ready);
      RespondEach(Answer(k, ready[0]), ready[1..]);
      var rs := Respond(k, ready).value.1;
      assert rs[1..] == Respond(Answer(k, ready[0]), ready[1..]).value.1;
      EachBuiltCons(k, ready, rs);
    }
  }
}
