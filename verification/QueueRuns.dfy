// What holds over every sequence of calls to the event queue.
module QueueRuns {
  import opened Options
  import opened EventQueue

  datatype Call = Add(event: Event) | Head | Release

  // The queue after some calls since its reset, every event accepted, and every event
  // that was moved to the head, the last of which the dispatcher may still hold.
  datatype Record = Record(queue: Queue, accepted: seq<Queued>, taken: seq<Queued>)

  function Accept(r: Record, e: Event): Record {
    if !Fits(r.queue, e) then r
    else Record(Push(r.queue, e), r.accepted + [Queued(Clip(e), r.queue.accepted + 1)], r.taken)
  }

  function Take(r: Record): Record {
    var queue := Peek(r.queue);
    Record(queue, r.accepted, if queue == r.queue || queue.held.None? then r.taken else r.taken + [queue.held.value])
  }

  function Called(r: Record, c: Call): Record {
    match c
    case Add(e) => Accept(r, e)
    case Head => Take(r)
    case Release => r.(queue := Acknowledge(r.queue))
  }

  function After(calls: seq<Call>): Record {
    if calls == [] then Record(EMPTY, [], [])
    else Called(After(calls[..|calls| - 1]), calls[|calls| - 1])
  }

  // The accepted ordered events are those taken and those waiting.
  predicate InPushOrder(r: Record) {
    Of(r.accepted, ORDERED) == Of(r.taken, ORDERED) + Of(r.queue.waiting, ORDERED)
  }

  lemma AcceptInPushOrder(r: Record, e: Event)
    requires InPushOrder(r)
    ensures InPushOrder(Accept(r, e))
  {
    if Fits(r.queue, e) {
      PushClasses(r.queue, e, ORDERED);
      OfAppend(r.accepted, Queued(Clip(e), r.queue.accepted + 1), ORDERED);
    }
  }

  lemma TakeInPushOrder(r: Record)
    requires InPushOrder(r)
    ensures InPushOrder(Take(r))
  {
    if r.queue.held.None? && r.queue.waiting != [] {
      var w := r.queue.waiting;
      OfAppend(r.taken, w[0], ORDERED);
      OfRest(w, ORDERED);
      assert Take(r).taken == r.taken + [w[0]] && Take(r).queue.waiting == w[1..];
    }
  }

  // Exactly the accepted ordered events come out, in the order in which they were pushed.
  lemma {:induction false} OrderedEventsInOrder(calls: seq<Call>)
    ensures InPushOrder(After(calls))
  {
    if calls != [] {
      var r := After(calls[..|calls| - 1]);
      OrderedEventsInOrder(calls[..|calls| - 1]);
      match calls[|calls| - 1]
      case Add(e) => AcceptInPushOrder(r, e);
      case Head => TakeInPushOrder(r);
      case Release =>
    }
  }

  // An accepted event is a copy of one that was pushed.
  lemma {:induction false} AcceptedArePushed(calls: seq<Call>, x: Queued) returns (e: Event)
    requires x in After(calls).accepted
    ensures Add(e) in calls && IsCopy(x.event, e)
  {
    var n := |calls| - 1;
    assert calls == calls[..n] + [calls[n]];
    if x in After(calls[..n]).accepted {
      e := AcceptedArePushed(calls[..n], x);
    } else {
      e := calls[n].event;
    }
  }

  // `y` tells the reader of `x` at least as much: it is `x`, or a later snapshot event
  // of the same kind.
  predicate Covers(y: Queued, x: Queued) {
    y == x || (ClassOf(x) != ORDERED && ClassOf(y) == ClassOf(x) && y.number > x.number)
  }

  ghost predicate Covered(c: seq<Queued>, x: Queued) {
    exists i :: 0 <= i < |c| && Covers(c[i], x)
  }

  // The events that came out or will, in order of acceptance, and nothing is forgotten.
  ghost predicate Faithful(r: Record) {
    && |r.accepted| == r.queue.accepted
    && (forall i :: 0 <= i < |r.accepted| ==> r.accepted[i].number == i + 1)
    && Sorted(r.taken + r.queue.waiting, r.queue.accepted)
    && (forall x :: x in r.taken + r.queue.waiting ==> x in r.accepted)
    && (forall x :: x in r.accepted ==> Covered(r.taken + r.queue.waiting, x))
  }

  lemma {:induction false} WithoutKeepsOrder(taken: seq<Queued>, waiting: seq<Queued>, k: int, last: nat)
    requires Sorted(taken + waiting, last)
    ensures Sorted(taken + Without(waiting, k), last)
    decreases waiting
  {
    if waiting != [] {
      var x, rest := waiting[0], waiting[1..];
      assert taken + waiting == taken + [x] + rest;
      if ClassOf(x) == k {
        SkipKeepsOrder(taken, x, rest, last);
        WithoutKeepsOrder(taken, rest, k, last);
      } else {
        WithoutKeepsOrder(taken + [x], rest, k, last);
        assert taken + Without(waiting, k) == taken + [x] + Without(rest, k);
      }
    }
  }

  lemma SkipKeepsOrder(a: seq<Queued>, x: Queued, b: seq<Queued>, last: nat)
    requires Sorted(a + [x] + b, last)
    ensures Sorted(a + b, last)
  {
    assert forall i :: 0 <= i < |a + b| ==> (a + b)[i] == (a + [x] + b)[if i < |a| then i else i + 1];
  }

  lemma AcceptKeepsOrder(taken: seq<Queued>, q: Queue, e: Event)
    requires Sorted(taken + q.waiting, q.accepted) && Fits(q, e)
    ensures Sorted(taken + Push(q, e).waiting, q.accepted + 1)
  {
    var k, x := SnapshotIndex(e.kind), Queued(Clip(e), q.accepted + 1);
    var rest := if k == ORDERED then q.waiting else Without(q.waiting, k);
    WithoutKeepsOrder(taken, q.waiting, k, q.accepted);
    assert taken + Push(q, e).waiting == taken + rest + [x];
  }

  // A removed snapshot event is covered by the one that takes its place.
  lemma AcceptCovers(taken: seq<Queued>, q: Queue, e: Event, x: Queued)
    requires Covered(taken + q.waiting, x) && Fits(q, e) && x.number <= q.accepted
    requires Sorted(taken + q.waiting, q.accepted)
    ensures Covered(taken + Push(q, e).waiting, x)
  {
    var was, now, k := taken + q.waiting, taken + Push(q, e).waiting, SnapshotIndex(e.kind);
    var i :| 0 <= i < |was| && Covers(was[i], x);
    var y := was[i];
    var latest := Queued(Clip(e), q.accepted + 1);
    assert now[|now| - 1] == latest;
    if i < |taken| {
      assert now[i] == y;
    } else if k != ORDERED && ClassOf(y) == k {
      assert Covers(now[|now| - 1], x);
    } else {
      assert y == q.waiting[i - |taken|];
      WithoutKeeps(q.waiting, k, y);
      assert y in Push(q, e).waiting;
      var j :| 0 <= j < |Push(q, e).waiting| && Push(q, e).waiting[j] == y;
      assert now[|taken| + j] == y;
    }
  }

  lemma AcceptFaithful(r: Record, e: Event)
    requires Faithful(r) && Fits(r.queue, e)
    ensures Faithful(Accept(r, e))
  {
    var next := Accept(r, e);
    var now := next.taken + next.queue.waiting;
    AcceptKeepsOrder(r.taken, r.queue, e);
    forall x | x in now
      ensures x in next.accepted
    {
      WithoutKeeps(r.queue.waiting, SnapshotIndex(e.kind), x);
    }
    forall x | x in next.accepted
      ensures Covered(now, x)
    {
      if x in r.accepted {
        AcceptCovers(r.taken, r.queue, e, x);
      } else {
        assert Covers(now[|now| - 1], x);
      }
    }
  }

  // The delivered events and the waiting ones are in order of acceptance; an accepted
  // event that is in neither is a snapshot event with a later one of its kind.
  lemma {:induction false} NothingForgotten(calls: seq<Call>)
    ensures Faithful(After(calls))
  {
    if calls != [] {
      var r := After(calls[..|calls| - 1]);
      NothingForgotten(calls[..|calls| - 1]);
      match calls[|calls| - 1]
      case Add(e) =>
        if Fits(r.queue, e) {
          AcceptFaithful(r, e);
        }
      case Head =>
        var next := Take(r);
        assert next.taken + next.queue.waiting == r.taken + r.queue.waiting;
      case Release =>
    }
  }

  lemma CallKeepsHead(calls: seq<Call>, c: Call)
    requires After(calls).queue.held.Some? && !c.Release?
    ensures After(calls + [c]).queue.held == After(calls).queue.held
    ensures After(calls + [c]).taken == After(calls).taken
  {
    assert (calls + [c])[..|calls|] == calls;
  }

  // Acknowledging releases the head, and the next peek takes the first event that waits.
  lemma AcknowledgedIsNext(calls: seq<Call>)
    ensures var r, t := After(calls), After(calls + [Release, Head]);
      if r.queue.waiting == [] then t.queue.held == None && t.taken == r.taken
      else
        && t.queue.held == Some(r.queue.waiting[0]) && t.taken == r.taken + [r.queue.waiting[0]]
        && t.queue.waiting == r.queue.waiting[1..]
  {
    var all := calls + [Release, Head];
    assert all[..|all| - 1] == calls + [Release];
    assert (calls + [Release])[..|calls|] == calls;
  }

  // What was peeked stays at the head, whatever is pushed, until it is acknowledged.
  lemma {:induction false} HeadStays(calls: seq<Call>, more: seq<Call>)
    requires After(calls).queue.held.Some? && Release !in more
    ensures After(calls + more).queue.held == After(calls).queue.held
    ensures After(calls + more).taken == After(calls).taken
  {
    if more == [] {
      assert calls + more == calls;
    } else {
      var n := |more| - 1;
      assert more[n] in more;
      HeadStays(calls, more[..n]);
      CallKeepsHead(calls + more[..n], more[n]);
      assert calls + more == calls + more[..n] + [more[n]];
    }
  }
}
