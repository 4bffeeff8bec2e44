// The foreground event queue of src/app/event_queue.c.
//
// `Queue` is what the queue promises: one sequence of waiting events and a retained
// head. `EventRing` is how it is kept: a ring for ordered events, one slot for each
// kind of snapshot event, and the copy that was peeked.
module EventQueue {
  import opened CStrings
  import opened Options

  const CAPACITY := 16
  const SNAPSHOTS := 4

  datatype Kind =
    | NoEvent | HostsChanged | PairingRequired | PairingFinished | PairingFailed | ConnectionStarted
    | ConnectionReady | ConnectionFailed | ConnectionClosed | StreamStarted | StreamStopped | StreamFailed
    | ApplicationsReady | ApplicationsFailed | SettingsChanged | SettingsClosed | HostAvailabilityChanged
    | DiscoveryChanged

  // `address` is a C string, without its terminator; None is a null pointer.
  datatype Event = Event(kind: Kind, result: int, hostId: int, applicationId: int, address: Option<string>,
                         pin: string, statusCode: int, statusMessage: string, runningId: int, generation: nat)

  // An accepted event and how many were accepted up to it.
  datatype Queued = Queued(event: Event, number: nat)

  // snapshot_index
  function SnapshotIndex(kind: Kind): (k: int)
    ensures ORDERED <= k < SNAPSHOTS
  {
    if kind.HostsChanged? then 0
    else if kind.SettingsChanged? then 1
    else if kind.HostAvailabilityChanged? then 2
    else if kind.DiscoveryChanged? then 3
    else -1
  }

  const ORDERED := -1

  function ClassOf(x: Queued): int {
    SnapshotIndex(x.event.kind)
  }

  // copy_event
  function Clip(e: Event): (c: Event)
    ensures c == e.(address := c.address)
  {
    match e.address
    case None => e
    case Some(a) => e.(address := Some(Truncate(a)))
  }

  /* ---------- The promised behaviour ---------- */

  datatype Queue = Queue(waiting: seq<Queued>, held: Option<Queued>, accepted: nat)

  const EMPTY := Queue([], None, 0)

  // The waiting events of class `k`, and the others.
  function Of(c: seq<Queued>, k: int): seq<Queued> {
    if c == [] then [] else if ClassOf(c[0]) == k then [c[0]] + Of(c[1..], k) else Of(c[1..], k)
  }

  function Without(c: seq<Queued>, k: int): seq<Queued> {
    if c == [] then [] else if ClassOf(c[0]) == k then Without(c[1..], k) else [c[0]] + Without(c[1..], k)
  }

  predicate Fits(q: Queue, e: Event) {
    SnapshotIndex(e.kind) != ORDERED || |Of(q.waiting, ORDERED)| < CAPACITY
  }

  function Push(q: Queue, e: Event): Queue {
    var k := SnapshotIndex(e.kind);
    if !Fits(q, e) then q
    else Queue((if k == ORDERED then q.waiting else Without(q.waiting, k)) + [Queued(Clip(e), q.accepted + 1)],
               q.held, q.accepted + 1)
  }

  function Peek(q: Queue): Queue {
    if q.held.Some? || q.waiting == [] then q
    else q.(waiting := q.waiting[1..], held := Some(q.waiting[0]))
  }

  function Acknowledge(q: Queue): Queue {
    q.(held := None)
  }

  /* ---------- Facts about the waiting events ---------- */

  // In order of acceptance, with numbers from 1 to `last`.
  ghost predicate Sorted(c: seq<Queued>, last: nat) {
    && (forall i :: 0 <= i < |c| ==> 1 <= c[i].number <= last)
    && (forall i, j :: 0 <= i < j < |c| ==> c[i].number < c[j].number)
  }

  lemma {:induction false} OfAppend(c: seq<Queued>, x: Queued, k: int)
    ensures Of(c + [x], k) == Of(c, k) + if ClassOf(x) == k then [x] else []
  {
    if c == [] {
      assert [] + [x] == [x];
    } else {
      assert (c + [x])[1..] == c[1..] + [x];
      OfAppend(c[1..], x, k);
    }
  }

  lemma {:induction false} OfWithout(c: seq<Queued>, k: int, j: int)
    ensures Of(Without(c, k), j) == if j == k then [] else Of(c, j)
  {
    if c != [] {
      OfWithout(c[1..], k, j);
      if ClassOf(c[0]) != k {
        assert Without(c, k)[0] == c[0] && Without(c, k)[1..] == Without(c[1..], k);
      }
    }
  }

  lemma {:induction false} InOf(c: seq<Queued>, x: Queued, k: int)
    ensures x in Of(c, k) <==> x in c && ClassOf(x) == k
  {
    if c != [] {
      InOf(c[1..], x, k);
      assert x in c <==> x == c[0] || x in c[1..];
    }
  }

  lemma {:induction false} WithoutKeeps(c: seq<Queued>, k: int, x: Queued)
    ensures x in Without(c, k) <==> x in c && ClassOf(x) != k
  {
    if c != [] {
      WithoutKeeps(c[1..], k, x);
      assert x in c <==> x == c[0] || x in c[1..];
    }
  }

  lemma {:induction false} WithoutSorted(c: seq<Queued>, k: int, last: nat)
    requires Sorted(c, last)
    ensures Sorted(Without(c, k), last)
  {
    if c != [] {
      WithoutSorted(c[1..], k, last);
      var rest := Without(c[1..], k);
      forall i | 0 <= i < |rest|
        ensures c[0].number < rest[i].number
      {
        WithoutKeeps(c[1..], k, rest[i]);
      }
    }
  }

  // Copying a stored event again shortens nothing.
  ghost predicate Clipped(c: seq<Queued>) {
    forall x :: x in c ==> Clip(x.event) == x.event
  }

  lemma PushClipped(q: Queue, e: Event)
    requires Clipped(q.waiting)
    ensures Clipped(Push(q, e).waiting)
  {
    assert Clip(Clip(e)) == Clip(e);
    forall x
      ensures x in Without(q.waiting, SnapshotIndex(e.kind)) ==> x in q.waiting
    {
      WithoutKeeps(q.waiting, SnapshotIndex(e.kind), x);
    }
  }

  // The classes' heads include the head of all, which has the least number.
  lemma FirstOfClass(c: seq<Queued>, k: int, last: nat)
    requires Sorted(c, last) && c != []
    ensures Of(c, ClassOf(c[0])) != [] && Of(c, ClassOf(c[0]))[0] == c[0]
    ensures Of(c, k) != [] && k != ClassOf(c[0]) ==> c[0].number < Of(c, k)[0].number
  {
    if Of(c, k) != [] {
      var x := Of(c, k)[0];
      InOf(c, x, k);
    }
  }

  lemma OfRest(c: seq<Queued>, k: int)
    requires c != []
    ensures Of(c[1..], k) == if ClassOf(c[0]) == k then Of(c, k)[1..] else Of(c, k)
  {
  }

  // Pushing keeps the order.
  lemma PushSorted(q: Queue, e: Event)
    requires Sorted(q.waiting, q.accepted)
    ensures Sorted(Push(q, e).waiting, Push(q, e).accepted)
  {
    WithoutSorted(q.waiting, SnapshotIndex(e.kind), q.accepted);
  }

  // A snapshot event takes the place of its predecessor.
  lemma PushClasses(q: Queue, e: Event, k: int)
    requires Fits(q, e)
    ensures Of(Push(q, e).waiting, k) ==
      if SnapshotIndex(e.kind) != k then Of(q.waiting, k)
      else (if k == ORDERED then Of(q.waiting, k) else []) + [Queued(Clip(e), q.accepted + 1)]
  {
    var j, x := SnapshotIndex(e.kind), Queued(Clip(e), q.accepted + 1);
    assert ClassOf(x) == j;
    OfWithout(q.waiting, j, k);
    OfAppend(if j == ORDERED then q.waiting else Without(q.waiting, j), x, k);
  }

  // A notice of a change, of which the latest is enough
  predicate IsChange(kind: Kind) {
    kind.HostsChanged? || kind.SettingsChanged? || kind.HostAvailabilityChanged? || kind.DiscoveryChanged?
  }

  // The waiting events of one kind, and those that are not notices of a change
  function OfKind(c: seq<Queued>, kind: Kind): seq<Queued> {
    if c == [] then [] else if c[0].event.kind == kind then [c[0]] + OfKind(c[1..], kind) else OfKind(c[1..], kind)
  }

  function NoChanges(c: seq<Queued>): seq<Queued> {
    if c == [] then [] else if IsChange(c[0].event.kind) then NoChanges(c[1..]) else [c[0]] + NoChanges(c[1..])
  }

  // What is kept of an event: all of it, but an address of at most 255 characters.
  predicate IsCopy(c: Event, e: Event) {
    && c == e.(address := c.address)
    && (c.address.None? <==> e.address.None?)
    && (e.address.Some? ==>
          && c.address.value <= e.address.value
          && |c.address.value| == if |e.address.value| <= 255 then |e.address.value| else 255)
  }

  lemma {:induction false} OfKindAppend(c: seq<Queued>, x: Queued, kind: Kind)
    ensures OfKind(c + [x], kind) == OfKind(c, kind) + if x.event.kind == kind then [x] else []
  {
    if c == [] {
      assert [] + [x] == [x];
    } else {
      assert (c + [x])[1..] == c[1..] + [x];
      OfKindAppend(c[1..], x, kind);
    }
  }

  lemma {:induction false} OfKindWithout(c: seq<Queued>, k: int, kind: Kind)
    requires k != ORDERED
    ensures OfKind(Without(c, k), kind) == if SnapshotIndex(kind) == k then [] else OfKind(c, kind)
  {
    if c != [] {
      OfKindWithout(c[1..], k, kind);
      if ClassOf(c[0]) != k {
        assert Without(c, k)[0] == c[0] && Without(c, k)[1..] == Without(c[1..], k);
      }
    }
  }

  lemma {:induction false} OrderedAreNoChanges(c: seq<Queued>)
    ensures Of(c, ORDERED) == NoChanges(c)
  {
    if c != [] {
      OrderedAreNoChanges(c[1..]);
    }
  }

  // A push is refused exactly when 16 events other than notices wait and the event is no
  // notice. Otherwise a copy is appended, and replaces an earlier notice of its kind; no
  // other event is lost.
  lemma PushKinds(q: Queue, e: Event, kind: Kind)
    ensures Fits(q, e) <==> IsChange(e.kind) || |NoChanges(q.waiting)| < 16
    ensures !Fits(q, e) ==> Push(q, e) == q
    ensures Fits(q, e) ==>
      var x := Queued(Clip(e), q.accepted + 1);
      && IsCopy(x.event, e) && Push(q, e).accepted == x.number && Push(q, e).held == q.held
      && OfKind(Push(q, e).waiting, kind) ==
           if kind != e.kind then OfKind(q.waiting, kind)
           else if IsChange(kind) then [x]
           else OfKind(q.waiting, kind) + [x]
  {
    OrderedAreNoChanges(q.waiting);
    if Fits(q, e) {
      var k, x := SnapshotIndex(e.kind), Queued(Clip(e), q.accepted + 1);
      OfKindAppend(if k == ORDERED then q.waiting else Without(q.waiting, k), x, kind);
      if k != ORDERED {
        OfKindWithout(q.waiting, k, kind);
      }
    }
  }

  /* ---------- The implementation ---------- */

  // The position after `i` in the ring.
  function Next(i: nat): (n: nat)
    requires i < CAPACITY
    ensures n == if i + 1 == CAPACITY then 0 else i + 1
  {
    (i + 1) % CAPACITY
  }

  // The `count` elements of a ring from position `head`.
  function Ring(cells: seq<Queued>, head: nat, count: nat): seq<Queued>
    requires |cells| == CAPACITY && head < CAPACITY
    decreases count
  {
    if count == 0 then [] else [cells[head]] + Ring(cells, Next(head), count - 1)
  }

  // The position after these elements.
  function Position(head: nat, count: nat): nat {
    if head + count < CAPACITY then head + count else head + count - CAPACITY
  }

  lemma {:induction false} RingSize(cells: seq<Queued>, head: nat, count: nat)
    requires |cells| == CAPACITY && head < CAPACITY
    ensures |Ring(cells, head, count)| == count
    decreases count
  {
    if count > 0 {
      RingSize(cells, Next(head), count - 1);
    }
  }

  lemma {:induction false} RingAppend(cells: seq<Queued>, head: nat, count: nat, tail: nat, x: Queued)
    requires |cells| == CAPACITY && head < CAPACITY && count < CAPACITY && tail == Position(head, count)
    ensures Ring(cells[tail := x], head, count + 1) == Ring(cells, head, count) + [x]
    decreases count
  {
    if count > 0 {
      RingAppend(cells, Next(head), count - 1, tail, x);
    }
  }

  // The ring holds the ordered events and each slot the one event of its kind.
  ghost predicate Kept(c: seq<Queued>, cells: seq<Queued>, head: nat, count: nat, slots: seq<Queued>, full: seq<bool>)
    requires |cells| == CAPACITY && head < CAPACITY && count <= CAPACITY && |slots| == |full| == SNAPSHOTS
  {
    && Of(c, ORDERED) == Ring(cells, head, count)
    && (forall i :: 0 <= i < SNAPSHOTS ==> Of(c, i) == if full[i] then [slots[i]] else [])
  }

  // Storing an accepted event keeps the waiting events.
  lemma AddKeeps(q: Queue, e: Event, cells: seq<Queued>, head: nat, count: nat, tail: nat, slots: seq<Queued>,
                 full: seq<bool>)
    requires |cells| == CAPACITY && head < CAPACITY && count <= CAPACITY && |slots| == |full| == SNAPSHOTS
    requires tail == Position(head, count)
    requires Sorted(q.waiting, q.accepted) && Kept(q.waiting, cells, head, count, slots, full)
    ensures Fits(q, e) <==> SnapshotIndex(e.kind) >= 0 || count < CAPACITY
    ensures Sorted(Push(q, e).waiting, Push(q, e).accepted)
    ensures var k, x := SnapshotIndex(e.kind), Queued(Clip(e), q.accepted + 1);
      Fits(q, e) ==>
        if k >= 0 then Kept(Push(q, e).waiting, cells, head, count, slots[k := x], full[k := true])
        else Kept(Push(q, e).waiting, cells[tail := x], head, count + 1, slots, full)
  {
    var k, x := SnapshotIndex(e.kind), Queued(Clip(e), q.accepted + 1);
    RingSize(cells, head, count);
    PushSorted(q, e);
    if Fits(q, e) {
      PushClasses(q, e, ORDERED);
      forall i | 0 <= i < SNAPSHOTS
        ensures Of(Push(q, e).waiting, i) == if i == k then [x] else if full[i] then [slots[i]] else []
      {
        PushClasses(q, e, i);
      }
      if k < 0 {
        RingAppend(cells, head, count, tail, x);
      }
    }
  }

  // Taking the first event away keeps the rest.
  lemma TakeKeeps(c: seq<Queued>, last: nat, cells: seq<Queued>, head: nat, count: nat, slots: seq<Queued>,
                  full: seq<bool>)
    requires |cells| == CAPACITY && head < CAPACITY && count <= CAPACITY && |slots| == |full| == SNAPSHOTS
    requires Sorted(c, last) && Kept(c, cells, head, count, slots, full) && c != []
    ensures Sorted(c[1..], last)
    ensures var k := ClassOf(c[0]);
      if k >= 0 then Kept(c[1..], cells, head, count, slots, full[k := false])
      else count > 0 && Kept(c[1..], cells, Next(head), count - 1, slots, full)
  {
    var k := ClassOf(c[0]);
    FirstOfClass(c, k, last);
    OfRest(c, ORDERED);
    forall i | 0 <= i < SNAPSHOTS
      ensures Of(c[1..], i) == if i == k then [] else if full[i] then [slots[i]] else []
    {
      OfRest(c, i);
    }
    RingSize(cells, head, count);
  }

  // The first number among the heads, 0 if there is none.
  ghost predicate Least(cells: seq<Queued>, head: nat, count: nat, slots: seq<Queued>, full: seq<bool>,
                        n: nat, selected: int, number: nat)
    requires |cells| == CAPACITY && head < CAPACITY && |slots| == |full| == SNAPSHOTS && n <= SNAPSHOTS
  {
    && -1 <= selected < n
    && (if selected >= 0 then full[selected] && number == slots[selected].number
        else number == if count > 0 then cells[head].number else 0)
    && (count > 0 ==> 0 < number <= cells[head].number)
    && (forall i :: 0 <= i < n && full[i] ==> 0 < number <= slots[i].number)
  }

  // The selected head is the first waiting event.
  lemma SelectedIsFirst(c: seq<Queued>, last: nat, cells: seq<Queued>, head: nat, count: nat, slots: seq<Queued>,
                        full: seq<bool>, selected: int, number: nat)
    requires |cells| == CAPACITY && head < CAPACITY && count <= CAPACITY && |slots| == |full| == SNAPSHOTS
    requires Sorted(c, last) && Kept(c, cells, head, count, slots, full)
    requires Least(cells, head, count, slots, full, SNAPSHOTS, selected, number)
    ensures number == 0 <==> c == []
    ensures number != 0 ==> c[0] == if selected >= 0 then slots[selected] else cells[head]
    ensures number != 0 ==> ClassOf(c[0]) == selected && c[0].number == number
  {
    if c != [] {
      var k := ClassOf(c[0]);
      FirstOfClass(c, selected, last);
      assert k >= 0 ==> Of(c, k) == if full[k] then [slots[k]] else [];
    }
  }

  class EventRing {
    const ordered: array<Queued>
    const snapshots: array<Queued>
    const snapshotPending: array<bool>
    var head: nat
    var tail: nat
    var count: nat
    var sequence: nat
    var pending: Queued
    var pendingValid: bool

    ghost var waiting: seq<Queued>

    ghost function View(): Queue
      reads this
    {
      Queue(waiting, if pendingValid then Some(pending) else None, sequence)
    }

    ghost predicate Shape()
      reads this
    {
      && ordered.Length == CAPACITY && snapshots.Length == snapshotPending.Length == SNAPSHOTS
      && ordered != snapshots
      && head < CAPACITY && count <= CAPACITY && tail == Position(head, count)
    }

    ghost predicate Valid()
      reads this, ordered, snapshots, snapshotPending
    {
      && Shape()
      && Sorted(waiting, sequence) && Clipped(waiting)
      && Kept(waiting, ordered[..], head, count, snapshots[..], snapshotPending[..])
    }

    // A new queue, reset.
    constructor ()
      ensures Valid() && View() == EMPTY
      ensures fresh(ordered) && fresh(snapshots) && fresh(snapshotPending)
    {
      var blank := Queued(Event(NoEvent, 0, 0, 0, None, "", 0, "", 0, 0), 0);
      ordered := new Queued[CAPACITY](_ => blank);
      snapshots := new Queued[SNAPSHOTS](_ => blank);
      snapshotPending := new bool[SNAPSHOTS](_ => false);
      head, tail, count, sequence := 0, 0, 0, 0;
      pending, pendingValid := blank, false;
      waiting := [];
      new;
    }

    // moonlight_event_queue_reset
    method Reset()
      requires Valid()
      modifies this, snapshotPending
      ensures Valid() && View() == EMPTY
    {
      head, tail, count, sequence, pendingValid := 0, 0, 0, 0, false;
      var i := 0;
      while i < SNAPSHOTS
        modifies snapshotPending
        invariant 0 <= i <= SNAPSHOTS
        invariant forall j :: 0 <= j < i ==> !snapshotPending[j]
      {
        snapshotPending[i] := false;
        i := i + 1;
      }
      waiting := [];
    }

    // moonlight_event_queue_push
    method Add(event: Event) returns (result: int)
      requires Valid()
      modifies this, ordered, snapshots, snapshotPending
      ensures Valid() && View() == Push(old(View()), event)
      ensures result == if Fits(old(View()), event) then 0 else -1
    {
      var index := SnapshotIndex(event.kind);
      AddKeeps(View(), event, ordered[..], head, count, tail, snapshots[..], snapshotPending[..]);
      PushClipped(View(), event);
      if index < 0 && count == CAPACITY {
        return -1;
      }
      ghost var was, cells, slots, full := View(), ordered[..], snapshots[..], snapshotPending[..];
      sequence := sequence + 1;
      if index >= 0 {
        snapshots[index] := Queued(Clip(event), sequence);
        snapshotPending[index] := true;
      } else {
        ordered[tail] := Queued(Clip(event), sequence);
        tail := Next(tail);
        count := count + 1;
      }
      waiting := Push(was, event).waiting;
      result := 0;
    }

    // The search of moonlight_event_queue_peek for the first event.
    method Select() returns (selected: int, number: nat)
      requires Valid()
      ensures Least(ordered[..], head, count, snapshots[..], snapshotPending[..], SNAPSHOTS, selected, number)
    {
      selected, number := -1, 0;
      FirstNumbers();
      if count > 0 {
        number := ordered[head].number;
      }
      var i := 0;
      while i < SNAPSHOTS
        invariant 0 <= i <= SNAPSHOTS
        invariant Least(ordered[..], head, count, snapshots[..], snapshotPending[..], i, selected, number)
      {
        if snapshotPending[i] && (number == 0 || snapshots[i].number < number) {
          selected, number := i, snapshots[i].number;
        }
        i := i + 1;
      }
    }

    // Numbers of kept events are positive, so that 0 can stand for none.
    lemma FirstNumbers()
      requires Valid()
      ensures count > 0 ==> ordered[head].number > 0
      ensures forall i :: 0 <= i < SNAPSHOTS && snapshotPending[i] ==> snapshots[i].number > 0
    {
      if count > 0 {
        InOf(waiting, ordered[head], ORDERED);
      }
      forall i | 0 <= i < SNAPSHOTS && snapshotPending[i]
        ensures snapshots[i].number > 0
      {
        assert Of(waiting, i) == [snapshots[i]];
        InOf(waiting, snapshots[i], i);
      }
    }

    // moonlight_event_queue_peek
    method Head() returns (event: Option<Event>)
      requires Valid()
      modifies this, snapshotPending
      ensures Valid() && View() == Peek(old(View()))
      ensures event == if View().held.Some? then Some(View().held.value.event) else None
    {
      if !pendingValid {
        var selected, number := Select();
        ghost var was, cells := waiting, ordered[..];
        SelectedIsFirst(was, sequence, cells, head, count, snapshots[..], snapshotPending[..], selected, number);
        if number == 0 {
          return None;
        }
        TakeKeeps(was, sequence, cells, head, count, snapshots[..], snapshotPending[..]);
        if selected >= 0 {
          pending := Queued(Clip(snapshots[selected].event), number);
          snapshotPending[selected] := false;
        } else {
          pending := Queued(Clip(ordered[head].event), number);
          head := Next(head);
          count := count - 1;
        }
        pendingValid := true;
        waiting := waiting[1..];
      }
      event := Some(pending.event);
    }

    // moonlight_event_queue_acknowledge
    method Release()
      requires Valid()
      modifies `pendingValid
      ensures Valid() && View() == Acknowledge(old(View()))
    {
      pendingValid := false;
    }
  }
}
