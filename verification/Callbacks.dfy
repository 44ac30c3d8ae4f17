/**
  Who is told about each tensor, and how often.  Every accepted submission gets a ticket, and its
  callback is due once: when the operation completes or fails, or at shutdown.
 */
module Callbacks {
  import opened Messages
  import opened Sequences

  /** How an operation on a response's tensors ends: with a status, later, or before it starts. */
  datatype Outcome = Completed | InProgress | BufferFailed

  /** What a callback is told: how the operation ended, that there was no buffer for it, or that it will not take
      place any more. */
  datatype Told = Ended | NoBuffer | AtShutDown

  /** Ticket of each tensor in the table, tickets of operations in progress, and tickets called back, in order, with
      what they were told. */
  datatype Desk = Desk(table: map<string, nat>, shutDown: bool, inFlight: set<nat>, fired: seq<nat>, told: seq<Told>,
    accepted: nat)

  datatype Event =
    | Submit(name: string)
    | Perform(names: seq<string>, outcome: Outcome)
    | Finish(ticket: nat)
    | ShutDown(order: seq<string>)     // the order in which the table is walked

  function Tickets(table: map<string, nat>, names: seq<string>): (ts: seq<nat>)
    requires forall n :: n in names ==> n in table
    ensures |ts| == |names| && forall i :: 0 <= i < |ts| ==> ts[i] == table[names[i]]
  {
    if names == [] then [] else Tickets(table, names[..|names| - 1]) + [table[names[|names| - 1]]]
  }

  predicate Present(table: map<string, nat>, names: seq<string>) {
    forall i :: 0 <= i < |names| ==> names[i] in table
  }

  /** What the program's own steps guarantee: agreed tensors are in the table, each once, and only operations in
      progress finish. */
  ghost predicate Possible(d: Desk, e: Event) {
    match e
    case Submit(_) => true
    case Perform(names, _) => Distinct(names) && Present(d.table, names)
    case Finish(t) => t in d.inFlight
    case ShutDown(order) => Distinct(order) && Present(d.table, order) && forall n :: n in d.table ==> n in order
  }

  /** Calls back these tickets. */
  function Tell(d: Desk, tickets: seq<nat>, told: Told): Desk {
    d.(fired := d.fired + tickets, told := d.told + seq(|tickets|, i => told))
  }

  ghost function Apply(d: Desk, e: Event): Desk
    requires Possible(d, e)
  {
    match e
    case Submit(name) =>
      if d.shutDown || name in d.table then d
      else d.(table := d.table[name := d.accepted], accepted := d.accepted + 1)
    case Perform(names, outcome) =>
      var tickets := Tickets(d.table, names);
      var left := d.(table := d.table - (set n | n in names));
      if outcome.InProgress? then left.(inFlight := d.inFlight + (set t | t in tickets))
      else Tell(left, tickets, if outcome.BufferFailed? then NoBuffer else Ended)
    case Finish(t) => Tell(d.(inFlight := d.inFlight - {t}), [t], Ended)
    case ShutDown(order) => Tell(d.(table := map[], shutDown := true), Tickets(d.table, order), AtShutDown)
  }

  ghost predicate Held(d: Desk, t: nat) {
    exists n :: n in d.table && d.table[n] == t
  }

  /** Each accepted ticket is in exactly one place: the table, in progress, or called back once. */
  ghost predicate Settled(d: Desk, t: nat) {
    var calls := multiset(d.fired)[t];
    if t >= d.accepted then !Held(d, t) && t !in d.inFlight && calls == 0
    else if Held(d, t) then t !in d.inFlight && calls == 0
    else if t in d.inFlight then calls == 0
    else calls == 1
  }

  ghost predicate Account(d: Desk) {
    && (forall m, n :: m in d.table && n in d.table && m != n ==> d.table[m] != d.table[n])
    && forall t: nat :: Settled(d, t)
  }

  /** A ticket occurs once among the tickets of different names, if one of them holds it. */
  lemma {:induction false} TicketOnce(d: Desk, names: seq<string>, t: nat)
    requires Account(d) && Distinct(names) && Present(d.table, names)
    ensures multiset(Tickets(d.table, names))[t] == (if exists n :: n in names && d.table[n] == t then 1 else 0)
    ensures t in Tickets(d.table, names) <==> exists n :: n in names && d.table[n] == t
  {
    if names != [] {
      var front, last := names[..|names| - 1], names[|names| - 1];
      assert names == front + [last];
      TicketOnce(d, front, t);
      assert Tickets(d.table, names) == Tickets(d.table, front) + [d.table[last]];
      if d.table[last] == t {
        assert forall n :: n in front ==> n != last && d.table[n] != t;
        assert last in names;
      } else {
        assert forall n :: n in names && d.table[n] == t ==> n in front;
      }
    }
  }

  lemma {:induction false} CountAppend(a: seq<nat>, b: seq<nat>, t: nat)
    ensures multiset(a + b)[t] == multiset(a)[t] + multiset(b)[t]
  {
  }

  /** The fate of one ticket when tensors leave the table. */
  lemma {:induction false} Leaves(d: Desk, e: Desk, names: seq<string>, fired: bool, t: nat)
    requires Account(d) && Distinct(names) && Present(d.table, names)
    requires e.table == d.table - (set n | n in names) && e.accepted == d.accepted
    requires e.fired == (if fired then d.fired + Tickets(d.table, names) else d.fired)
    requires e.inFlight == (if fired then d.inFlight else d.inFlight + (set x | x in Tickets(d.table, names)))
    ensures Settled(e, t)
  {
    assert Settled(d, t);
    var tickets := Tickets(d.table, names);
    TicketOnce(d, names, t);
    CountAppend(d.fired, tickets, t);
    if n :| n in names && d.table[n] == t {
      assert Held(d, t);
      assert forall m :: m in e.table ==> m != n && d.table[m] != t;
    } else {
      assert Held(d, t) <==> Held(e, t) by {
        if n :| n in d.table && d.table[n] == t { assert n in e.table; }
      }
    }
  }

  lemma {:induction false} SubmitAccount(d: Desk, name: string)
    requires Account(d) && !d.shutDown && name !in d.table
    ensures Account(Apply(d, Submit(name)))
  {
    var e := Apply(d, Submit(name));
    assert Settled(d, d.accepted);
    forall n | n in d.table ensures d.table[n] != d.accepted { assert Held(d, d.table[n]); }
    forall t: nat ensures Settled(e, t) {
      assert Settled(d, t);
      if t == d.accepted {
        assert e.table[name] == t;
      } else {
        assert Held(d, t) <==> Held(e, t) by {
          if n :| n in d.table && d.table[n] == t { assert e.table[n] == t; }
        }
      }
    }
  }

  lemma {:induction false} FinishAccount(d: Desk, ticket: nat)
    requires Account(d) && ticket in d.inFlight
    ensures Account(Apply(d, Finish(ticket)))
  {
    var e := Apply(d, Finish(ticket));
    forall t: nat ensures Settled(e, t) {
      assert Settled(d, t);
      CountAppend(d.fired, [ticket], t);
      assert Held(d, t) <==> Held(e, t);
    }
  }

  /** Every step keeps the account. */
  lemma {:induction false} StepAccount(d: Desk, e: Event)
    requires Account(d) && Possible(d, e)
    ensures Account(Apply(d, e))
  {
    match e
    case Submit(name) => if !d.shutDown && name !in d.table { SubmitAccount(d, name); }
    case Perform(names, outcome) =>
      forall t: nat ensures Settled(Apply(d, e), t) { Leaves(d, Apply(d, e), names, !outcome.InProgress?, t); }
    case Finish(t) => FinishAccount(d, t);
    case ShutDown(order) =>
      assert d.table - (set n | n in order) == map[];
      forall t: nat ensures Settled(Apply(d, e), t) { Leaves(d, Apply(d, e), order, true, t); }
  }

  /** The steps can be taken one after the other. */
  ghost predicate Runs(events: seq<Event>)
    decreases |events|, 0
  {
    events == [] || (Runs(events[..|events| - 1]) && Possible(After(events[..|events| - 1]), events[|events| - 1]))
  }

  ghost function After(events: seq<Event>): Desk
    requires Runs(events)
    decreases |events|, 1
  {
    if events == [] then Desk(map[], false, {}, [], [], 0)
      else Apply(After(events[..|events| - 1]), events[|events| - 1])
  }

  lemma {:induction false} RunAccount(events: seq<Event>)
    requires Runs(events)
    ensures Account(After(events))
    ensures After(events).shutDown ==> After(events).table == map[]
  {
    if events != [] {
      RunAccount(events[..|events| - 1]);
      StepAccount(After(events[..|events| - 1]), events[|events| - 1]);
    }
  }

  /** In any run a callback is called at most once, and only for an accepted tensor; after shutdown it has been called
      exactly once for every accepted tensor whose operation is not still in progress. */
  lemma {:induction false} CalledOnce(events: seq<Event>, t: nat)
    requires Runs(events)
    ensures
      var d := After(events);
      var calls := multiset(d.fired)[t];
      && calls <= 1 && (calls == 1 ==> t < d.accepted)
      && (d.shutDown && t < d.accepted && t !in d.inFlight ==> calls == 1)
  {
    RunAccount(events);
    assert Settled(After(events), t);
  }

  /** The step calls this ticket back, and rightly tells it so. */
  ghost predicate Tells(d: Desk, e: Event, ticket: nat, told: Told) {
    match e
    case Submit(_) => false
    case Perform(names, outcome) =>
      (exists n :: n in names && n in d.table && d.table[n] == ticket)
      && ((outcome == Completed && told == Ended) || (outcome == BufferFailed && told == NoBuffer))
    case Finish(t) => t == ticket && told == Ended
    case ShutDown(order) => told == AtShutDown && Held(d, ticket)
  }

  lemma {:induction false} StepTells(d: Desk, e: Event, i: nat)
    requires Possible(d, e) && |d.told| == |d.fired| <= i < |Apply(d, e).fired|
    ensures |Apply(d, e).told| == |Apply(d, e).fired| && Tells(d, e, Apply(d, e).fired[i], Apply(d, e).told[i])
  {
    match e
    case Submit(_) =>
    case Perform(names, _) =>
      assert names[i - |d.fired|] in names;
    case Finish(_) =>
    case ShutDown(order) =>
      assert order[i - |d.fired|] in d.table;
  }

  lemma {:induction false} StepToldSize(d: Desk, e: Event)
    requires Possible(d, e) && |d.told| == |d.fired|
    ensures |Apply(d, e).told| == |Apply(d, e).fired| && d.fired <= Apply(d, e).fired && d.told <= Apply(d, e).told
  {
  }

  /** What a callback was told is what happened to its tensor: its operation ended, found no buffer, or was still to
      come when everything was shut down. */
  lemma {:induction false} ToldTruly(events: seq<Event>, i: nat) returns (k: nat)
    requires Runs(events) && i < |After(events).fired|
    ensures |After(events).told| == |After(events).fired| && k < |events| && Runs(events[..k])
    ensures Tells(After(events[..k]), events[k], After(events).fired[i], After(events).told[i])
  {
    ToldSizes(events);
    var n := |events| - 1;
    var before := After(events[..n]);
    ToldSizes(events[..n]);
    if i < |before.fired| {
      k := ToldTruly(events[..n], i);
      StepToldSize(before, events[n]);
      assert events[..n][..k] == events[..k];
    } else {
      k := n;
      StepTells(before, events[n], i);
    }
  }

  lemma {:induction false} ToldSizes(events: seq<Event>)
    requires Runs(events)
    ensures |After(events).told| == |After(events).fired|
  {
    if events != [] {
      ToldSizes(events[..|events| - 1]);
      StepToldSize(After(events[..|events| - 1]), events[|events| - 1]);
    }
  }

  /** No accepted tensor loses its place: a second submission under the same name is refused until the first is done
      with. */
  lemma {:induction false} DuplicateRefused(events: seq<Event>, name: string)
    requires Runs(events) && name in After(events).table
    ensures Runs(events + [Submit(name)]) && After(events + [Submit(name)]) == After(events)
  {
    var more := events + [Submit(name)];
    assert more[..|more| - 1] == events;
  }
}
