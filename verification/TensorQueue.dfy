/** The tensor table, the message queue and the thread that performs operations, in place. */
module TensorQueues {
  import opened Messages
  import opened Sequences
  import opened Callbacks

  datatype TableEntry = TableEntry(params: TensorParams, callback: nat)

  datatype Status = Success | DuplicateName | NotAllowed | HasShutDown

  class TensorQueue {
    var table: map<string, TableEntry>
    var queue: seq<Request>

    constructor ()
      ensures table == map[] && queue == []
    {
      table, queue := map[], [];
    }

    /** Files a tensor with its request, unless there is one of that name. */
    method AddToTensorQueue(name: string, e: TableEntry, m: Request) returns (status: Status)
      modifies this
      ensures status == if name in old(table) then DuplicateName else Success
      ensures status.Success? ==> table == old(table)[name := e] && queue == old(queue) + [m]
      ensures !status.Success? ==> table == old(table) && queue == old(queue)
    {
      if name in table { return DuplicateName; }
      table := table[name := e];
      queue := queue + [m];
      status := Success;
    }

    method PopMessages() returns (buffer: seq<Request>)
      modifies this`queue
      ensures buffer == old(queue) && queue == []
    {
      buffer := [];
      while queue != []
        invariant buffer + queue == old(queue)
        decreases |queue|
      {
        buffer, queue := buffer + [queue[0]], queue[1..];
      }
    }

    method PushMessage(m: Request)
      modifies this`queue
      ensures queue == old(queue) + [m]
    {
      queue := queue + [m];
    }

    /** Takes the entries of a response's tensors out of the table. */
    method GetTensorEntries(names: seq<string>) returns (entries: seq<TableEntry>)
      requires Distinct(names) && forall i :: 0 <= i < |names| ==> names[i] in table
      modifies this`table
      ensures |entries| == |names| && forall i :: 0 <= i < |names| ==> entries[i] == old(table)[names[i]]
      ensures table == old(table) - (set n | n in names)
    {
      entries := [];
      var i := 0;
      while i < |names|
        invariant i <= |names| && |entries| == i
        invariant forall j :: 0 <= j < i ==> entries[j] == old(table)[names[j]]
        invariant table == old(table) - (set n | n in names[..i])
      {
        assert names[i] !in names[..i];
        ghost var done := names[..i + 1];
        assert (set n | n in done) == (set n | n in names[..i]) + {names[i]};
        entries := entries + [table[names[i]]];
        table := table - {names[i]};
        i := i + 1;
      }
      assert names[..i] == names;
    }

    /** Collects the callbacks of all tensors and drops tensors and messages; `order` is how the table was walked. */
    method FinalizeTensorQueue() returns (callbacks: seq<nat>, ghost order: seq<string>)
      modifies this
      ensures Distinct(order) && |callbacks| == |order| && forall n :: n in order <==> n in old(table)
      ensures forall i :: 0 <= i < |order| ==> order[i] in old(table) && callbacks[i] == old(table)[order[i]].callback
      ensures table == map[] && queue == []
    {
      callbacks, order := [], [];
      var rest := table.Keys;
      while rest != {}
        invariant rest <= table.Keys && table == old(table)
        invariant Distinct(order) && |callbacks| == |order| && forall n :: n in order <==> n in table && n !in rest
        invariant forall i :: 0 <= i < |order| ==> order[i] in table && callbacks[i] == table[order[i]].callback
        decreases rest
      {
        var n :| n in rest;
        callbacks, order := callbacks + [table[n].callback], order + [n];
        rest := rest - {n};
      }
      table := map[];
      while queue != []
        invariant table == map[]
        decreases |queue|
      {
        queue := queue[1..];
      }
    }
  }

  class Worker {
    const tensorQueue: TensorQueue
    var shutDown: bool
    var inFlight: set<nat>       // callbacks of operations in progress
    var fired: seq<nat>          // callbacks called, in order
    var told: seq<Told>          // what they were told
    var accepted: nat

    ghost function View(): Desk
      reads this, tensorQueue
    {
      Desk(map n | n in tensorQueue.table :: tensorQueue.table[n].callback, shutDown, inFlight, fired, told, accepted)
    }

    constructor ()
      ensures View() == Desk(map[], false, {}, [], [], 0) && fresh(tensorQueue)
    {
      tensorQueue := new TensorQueue();
      shutDown, inFlight, fired, told, accepted := false, {}, [], [], 0;
    }

    /** A framework thread hands in a tensor; averaging has to be done by the caller. */
    method EnqueueTensor(p: TensorParams, m: Request, average: bool) returns (status: Status)
      modifies this, tensorQueue
      ensures status == (if average then NotAllowed else if old(shutDown) then HasShutDown
                         else if m.name in old(tensorQueue.table) then DuplicateName else Success)
      ensures View() == if average then old(View()) else Apply(old(View()), Submit(m.name))
      ensures tensorQueue.queue == if status.Success? then old(tensorQueue.queue) + [m] else old(tensorQueue.queue)
    {
      if average { return NotAllowed; }
      if shutDown { return HasShutDown; }
      status := tensorQueue.AddToTensorQueue(m.name, TableEntry(p, accepted), m);
      if status.Success? { accepted := accepted + 1; }
    }

    /** Takes the entries of the named tensors out of the table. */
    method TakeEntries(names: seq<string>, ghost tickets: seq<nat>) returns (entries: seq<TableEntry>)
      requires Possible(View(), Callbacks.Perform(names, Completed)) && tickets == Tickets(View().table, names)
      modifies tensorQueue
      ensures Bear(entries, tickets) && |entries| == |names|
      ensures View() == old(View()).(table := old(View()).table - (set n | n in names))
    {
      entries := tensorQueue.GetTensorEntries(names);
    }

    method CallBack(entries: seq<TableEntry>, status: Told, ghost tickets: seq<nat>)
      requires Bear(entries, tickets)
      modifies this`fired, this`told
      ensures View() == Tell(old(View()), tickets, status)
    {
      var i := 0;
      assert tickets[..0] == [] && fired + [] == fired && told + seq(0, k => status) == told;
      while i < |entries|
        invariant i <= |entries| && fired == old(fired) + tickets[..i] && told == old(told) + seq(i, k => status)
      {
        assert tickets[..i + 1] == tickets[..i] + [entries[i].callback];
        assert seq(i + 1, k => status) == seq(i, k => status) + [status];
        fired, told := fired + [entries[i].callback], told + [status];
        i := i + 1;
      }
      assert tickets[..i] == tickets;
    }

    /** The operation goes on in the background. */
    method Start(entries: seq<TableEntry>, ghost tickets: seq<nat>)
      requires Bear(entries, tickets)
      modifies this`inFlight
      ensures View() == old(View()).(inFlight := old(View()).inFlight + (set t | t in tickets))
    {
      SameTickets(entries, tickets);
      inFlight := inFlight + (set e | e in entries :: e.callback);
    }

    /** Performs a response.  The fusion buffer is needed for two or more tensors; an operation may finish later. */
    method PerformOperation(names: seq<string>, bufferOk: bool, inProgress: bool)
      requires Possible(View(), Callbacks.Perform(names, Completed))
      modifies this, tensorQueue
      ensures View() == Apply(old(View()), Callbacks.Perform(names,
        if |names| > 1 && !bufferOk then BufferFailed else if inProgress then InProgress else Completed))
    {
      ghost var d := View();
      ghost var tickets := Tickets(d.table, names);
      var entries := TakeEntries(names, tickets);
      hide Possible, Tickets, Distinct, View;
      if |entries| > 1 && !bufferOk {
        CallBack(entries, NoBuffer, tickets);
        return;
      }
      if !inProgress {
        CallBack(entries, Ended, tickets);
      } else {
        Start(entries, tickets);
      }
    }

    /** The completion of one tensor of an operation in progress. */
    method Finish(callback: nat)
      requires callback in inFlight
      modifies this`inFlight, this`fired, this`told
      ensures View() == Apply(old(View()), Callbacks.Finish(callback))
    {
      inFlight := inFlight - {callback};
      fired, told := fired + [callback], told + [Ended];
      assert [Ended] == seq(1, k => Ended);
    }

    /** The end of the background thread: every tensor left is told about the shutdown. */
    method Finalize() returns (ghost order: seq<string>)
      modifies this, tensorQueue
      ensures Possible(old(View()), ShutDown(order)) && View() == Apply(old(View()), ShutDown(order))
    {
      ghost var d := View();
      shutDown := true;
      var callbacks: seq<nat>;
      callbacks, order := tensorQueue.FinalizeTensorQueue();
      var i := 0;
      while i < |callbacks|
        modifies this`fired, this`told
        invariant i <= |callbacks| && fired == d.fired + callbacks[..i] && told == d.told + seq(i, k => AtShutDown)
      {
        assert seq(i + 1, k => AtShutDown) == seq(i, k => AtShutDown) + [AtShutDown];
        fired, told := fired + [callbacks[i]], told + [AtShutDown];
        i := i + 1;
      }
      assert callbacks == Tickets(d.table, order);
    }
  }

  /** The entries carry these callbacks, in order. */
  ghost predicate Bear(entries: seq<TableEntry>, tickets: seq<nat>) {
    |entries| == |tickets| && forall i :: 0 <= i < |entries| ==> entries[i].callback == tickets[i]
  }

  lemma {:induction false} SameTickets(entries: seq<TableEntry>, tickets: seq<nat>)
    requires Bear(entries, tickets)
    ensures (set e | e in entries :: e.callback) == (set t | t in tickets)
  {
    forall t | t in tickets ensures t in (set e | e in entries :: e.callback) {
      var i :| 0 <= i < |tickets| && tickets[i] == t;
      assert entries[i] in entries;
    }
  }
}
