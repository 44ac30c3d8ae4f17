/** Fusion as the controller does it: deques with look-ahead, skipping and reinsertion. */
module FusionLoops {
  import opened Messages
  import opened Fusion

  /** The look-ahead so far: `taken` joined the head, `skipped` were passed over, `left` is still to come. */
  ghost predicate Looked(head: Response, rest: seq<Response>, t: Table, limit: int,
      taken: seq<Response>, skipped: seq<Response>, total: nat, skippedSize: nat, left: seq<Response>)
  {
    && NameOf(head) in t && Known(rest, t) && Known(left, t)
    && Scan(head, Cost(head, head, t), 0, rest, t, limit).0 == taken + Scan(head, total, skippedSize, left, t, limit).0
    && Scan(head, Cost(head, head, t), 0, rest, t, limit).1
      == skipped + Scan(head, total, skippedSize, left, t, limit).1
  }

  lemma {:induction false} LookNone(head: Response, rest: seq<Response>, t: Table, limit: int)
    requires NameOf(head) in t && Known(rest, t)
    ensures Looked(head, rest, t, limit, [], [], Cost(head, head, t), 0, rest)
  {
    var s := Scan(head, Cost(head, head, t), 0, rest, t, limit);
    assert [] + s.0 == s.0 && [] + s.1 == s.1;
  }

  lemma {:induction false} LookTake(head: Response, rest: seq<Response>, t: Table, limit: int,
      taken: seq<Response>, skipped: seq<Response>, total: nat, skippedSize: nat, left: seq<Response>)
    requires left != [] && Looked(head, rest, t, limit, taken, skipped, total, skippedSize, left)
    requires Compatible(head, left[0], t) && total + Cost(head, left[0], t) <= limit
    ensures Looked(head, rest, t, limit, taken + [left[0]], skipped, total + Cost(head, left[0], t), skippedSize,
      left[1..])
  {
    var s := Scan(head, total + Cost(head, left[0], t), skippedSize, left[1..], t, limit);
    assert taken + ([left[0]] + s.0) == (taken + [left[0]]) + s.0;
  }

  lemma {:induction false} LookSkip(head: Response, rest: seq<Response>, t: Table, limit: int,
      taken: seq<Response>, skipped: seq<Response>, total: nat, skippedSize: nat, left: seq<Response>)
    requires left != [] && Looked(head, rest, t, limit, taken, skipped, total, skippedSize, left)
    requires !(Compatible(head, left[0], t) && total + Cost(head, left[0], t) <= limit)
    requires total + skippedSize + Cost(head, left[0], t) <= limit
    ensures Looked(head, rest, t, limit, taken, skipped + [left[0]], total, skippedSize + Cost(head, left[0], t),
      left[1..])
  {
    var s := Scan(head, total, skippedSize + Cost(head, left[0], t), left[1..], t, limit);
    assert skipped + ([left[0]] + s.1) == (skipped + [left[0]]) + s.1;
  }

  /** The look-ahead ends when the queue is empty, or at a response that may be neither taken nor skipped. */
  lemma {:induction false} LookDone(head: Response, rest: seq<Response>, t: Table, limit: int,
      taken: seq<Response>, skipped: seq<Response>, total: nat, skippedSize: nat, left: seq<Response>)
    requires Looked(head, rest, t, limit, taken, skipped, total, skippedSize, left)
    requires left == [] ||
      (!(Compatible(head, left[0], t) && total + Cost(head, left[0], t) <= limit)
        && total + skippedSize + Cost(head, left[0], t) > limit)
    ensures Scan(head, Cost(head, head, t), 0, rest, t, limit) == (taken, skipped + left)
  {
    assert taken + [] == taken;
    assert left == [] ==> skipped + left == skipped;
  }

  lemma {:induction false} MergeNext(group: seq<Response>, r: Response)
    requires group != []
    ensures Merge(group + [r]) == if Gathers(group[0])
      then Merge(group).(names := Merge(group).names + [NameOf(r)], sizes := Merge(group).sizes + r.sizes)
      else Merge(group).(names := Merge(group).names + [NameOf(r)])
  {
    assert (group + [r])[..|group|] == group;
  }

  /** Looks ahead in the queue for responses that fuse with its head; returns the fused response and the rest of the
      queue. */
  method FuseFirst(queue: seq<Response>, t: Table, limit: int) returns (response: Response, responses: seq<Response>)
    requires queue != [] && Known(queue, t) && (Reduces(queue[0].kind) || Gathers(queue[0]))
    ensures response == Merge([queue[0]] + GroupOf(queue, t, limit).0) && responses == GroupOf(queue, t, limit).1
  {
    hide Scan, Looked, Merge, Cost;
    ghost var head, rest := queue[0], queue[1..];
    response, responses := queue[0], queue[1..];
    var first := response;
    var total: nat := Cost(first, first, t);
    var skipped := [];
    var skippedSize: nat := 0;
    ghost var taken: seq<Response> := [];
    LookNone(head, rest, t, limit);
    MergeOne(head);
    assert [head] + taken == [head];
    while responses != []
      invariant Known(responses, t) && Looked(head, rest, t, limit, taken, skipped, total, skippedSize, responses)
      invariant response == Merge([head] + taken)
      decreases |responses|
    {
      var next := responses[0];
      var size := Cost(first, next, t);
      if first.kind == next.kind && first.devices == next.devices && t[NameOf(first)].dtype == t[NameOf(next)].dtype
        && total + size <= limit {
        LookTake(head, rest, t, limit, taken, skipped, total, skippedSize, responses);
        MergeNext([head] + taken, next);
        assert [head] + (taken + [next]) == ([head] + taken) + [next];
        total := total + size;
        response := if Gathers(first)
          then response.(names := response.names + [NameOf(next)], sizes := response.sizes + next.sizes)
                    else response.(names := response.names + [NameOf(next)]);
        taken := taken + [next];
        responses := responses[1..];
      } else if total + (skippedSize + size) <= limit {
        LookSkip(head, rest, t, limit, taken, skipped, total, skippedSize, responses);
        skippedSize := skippedSize + size;
        skipped := skipped + [next];
        responses := responses[1..];
      } else {
        break;
      }
    }
    LookDone(head, rest, t, limit, taken, skipped, total, skippedSize, responses);
    ghost var left, passed := responses, skipped;
    while skipped != []
      invariant skipped + responses == passed + left
      decreases |skipped|
    {
      var last := |skipped| - 1;
      assert skipped == skipped[..last] + [skipped[last]];
      responses, skipped := [skipped[last]] + responses, skipped[..last];
    }
    assert responses == passed + left;
  }

  lemma {:induction false} MergeOne(r: Response)
    ensures Merge([r]) == r
  {
  }

  /** What taking one fused response off the queue comes to. */
  lemma {:induction false} FuseNext(rs: seq<Response>, t: Table, limit: int)
    requires rs != [] && Known(rs, t)
    ensures |GroupOf(rs, t, limit).1| < |rs| && Known(GroupOf(rs, t, limit).1, t)
    ensures Fuse(rs, t, limit) == [Merge([rs[0]] + GroupOf(rs, t, limit).0)] + Fuse(GroupOf(rs, t, limit).1, t, limit)
  {
    FuseStep(rs, t, limit);
  }

  /** The list so far and what is left in the queue come to `whole`. */
  ghost predicate FusedSoFar(list: seq<Response>, responses: seq<Response>, t: Table, limit: int, whole: seq<Response>)
  {
    Known(responses, t) && list + Fuse(responses, t, limit) == whole
  }

  lemma {:induction false} FusedNext(list: seq<Response>, rs: seq<Response>, t: Table, limit: int, whole: seq<Response>)
    requires rs != [] && FusedSoFar(list, rs, t, limit, whole)
    ensures FusedSoFar(list + [Merge([rs[0]] + GroupOf(rs, t, limit).0)], GroupOf(rs, t, limit).1, t, limit, whole)
    ensures |GroupOf(rs, t, limit).1| < |rs|
  {
    FuseNext(rs, t, limit);
    var response, left := Merge([rs[0]] + GroupOf(rs, t, limit).0), GroupOf(rs, t, limit).1;
    hide Merge, GroupOf, Fuse, Known;
    assert list + ([response] + Fuse(left, t, limit)) == (list + [response]) + Fuse(left, t, limit);
  }

  lemma {:induction false} FusedAll(list: seq<Response>, t: Table, limit: int, whole: seq<Response>)
    requires FusedSoFar(list, [], t, limit, whole)
    ensures list == whole
  {
    FuseEmpty(t, limit);
    assert list + [] == list;
  }

  /** Takes one response off the queue, together with what fuses with it. */
  method TakeResponse(queue: seq<Response>, t: Table, limit: int) returns (response: Response, responses: seq<Response>)
    requires queue != [] && Known(queue, t)
    ensures response == Merge([queue[0]] + GroupOf(queue, t, limit).0) && responses == GroupOf(queue, t, limit).1
  {
    response := queue[0];
    if Reduces(response.kind) || Gathers(response) {
      response, responses := FuseFirst(queue, t, limit);
    } else {
      AloneInGroup(queue, t, limit);
      responses := queue[1..];
    }
  }

  /** Takes responses off the queue, fusing what fits, until the queue is empty. */
  method FuseResponses(queue: seq<Response>, t: Table, limit: int) returns (list: seq<Response>)
    requires Known(queue, t)
    ensures list == Fuse(queue, t, limit)
  {
    ghost var whole := Fuse(queue, t, limit);
    list := [];
    var responses := queue;
    assert FusedSoFar(list, responses, t, limit, whole) by { assert [] + whole == whole; }
    hide Fuse, Merge, GroupOf, FusedSoFar, Known;
    while responses != []
      invariant Known(responses, t) && FusedSoFar(list, responses, t, limit, whole)
      decreases |responses|
    {
      FusedNext(list, responses, t, limit, whole);
      var response;
      response, responses := TakeResponse(responses, t, limit);
      list := list + [response];
      StillKnown(list, responses, t, limit, whole);
    }
    FusedAll(list, t, limit, whole);
  }

  lemma {:induction false} StillKnown(list: seq<Response>, responses: seq<Response>, t: Table, limit: int,
      whole: seq<Response>)
    requires FusedSoFar(list, responses, t, limit, whole)
    ensures Known(responses, t)
  {
  }

  lemma {:induction false} AloneInGroup(rs: seq<Response>, t: Table, limit: int)
    requires rs != [] && Known(rs, t) && !Reduces(rs[0].kind) && !Gathers(rs[0])
    ensures GroupOf(rs, t, limit) == ([], rs[1..]) && Merge([rs[0]] + GroupOf(rs, t, limit).0) == rs[0]
  {
    assert [rs[0]] + [] == [rs[0]];
  }

  lemma {:induction false} FuseEmpty(t: Table, limit: int)
    ensures Known([], t) && Fuse([], t, limit) == []
  {
  }
}
