// Touch input of src/moonlight/vita_touch.c in the modes that forward touch points: the
// events that are sent, against a host that replays them.
module TouchPoints {
  import opened Options

  const MAX_REPORT := 8             // SCE_TOUCH_MAX_REPORT
  const WIDTH := 960
  const HEIGHT := 544

  datatype Position = Position(x: int, y: int)

  datatype Point = Point(active: bool, at: Position)

  const UP := Point(false, Position(0, 0))

  datatype Report = Report(id: nat, x: int, y: int)

  datatype Event =
    | Down(id: nat, at: Position)
    | Move(id: nat, at: Position)
    | Up(id: nat, at: Position)
    | CancelAll

  /* ---------- The host ---------- */

  // What the host makes of an event: its contacts, or None if the event is out of place,
  // a DOWN of a contact that is down, or a MOVE or UP of one that is not.
  function React(host: map<nat, Position>, e: Event): Option<map<nat, Position>> {
    match e
    case Down(id, at) => if id in host then None else Some(host[id := at])
    case Move(id, at) => if id in host then Some(host[id := at]) else None
    case Up(id, _) => if id in host then Some(host - {id}) else None
    case CancelAll => Some(map[])
  }

  // An event out of place is never made good.
  function Follow(host: Option<map<nat, Position>>, e: Event): Option<map<nat, Position>> {
    if host.None? then None else React(host.value, e)
  }

  // Its contacts after all events, if each one is in place.
  function Replay(events: seq<Event>): Option<map<nat, Position>> {
    if events == [] then Some(map[])
    else Follow(Replay(events[..|events| - 1]), events[|events| - 1])
  }

  lemma ReplayMore(events: seq<Event>, e: Event)
    ensures Replay(events + [e]) == Follow(Replay(events), e)
  {
    assert (events + [e])[..|events|] == events;
  }

  // The events about one contact, in order
  function About(events: seq<Event>, id: nat): seq<Event> {
    if events == [] then []
    else
      var rest, e := About(events[..|events| - 1], id), events[|events| - 1];
      if e.CancelAll? || e.id == id then rest + [e] else rest
  }

  // DOWN, MOVEs, then UP or a cancellation, again and again; `down` says where it ends.
  predicate Bracketed(events: seq<Event>, down: bool) {
    if events == [] then !down
    else
      var rest, e := events[..|events| - 1], events[|events| - 1];
      match e
      case Down(_, _) => down && Bracketed(rest, false)
      case Move(_, _) => down && Bracketed(rest, true)
      case Up(_, _) => !down && Bracketed(rest, true)
      case CancelAll => !down && (Bracketed(rest, true) || Bracketed(rest, false))
  }

  // What replays is bracketed for each contact.
  lemma {:induction false} ReplayIsBracketed(events: seq<Event>, id: nat)
    requires Replay(events).Some?
    ensures Bracketed(About(events, id), id in Replay(events).value)
  {
    if events != [] {
      ReplayIsBracketed(events[..|events| - 1], id);
    }
  }

  /* ---------- A frame ---------- */

  // (int)v * to / from, which truncates
  function Scale(v: int, to: nat, from: nat): int
    requires from > 0
  {
    if v >= 0 then v * to / from else -((-v) * to / from)
  }

  function PositionOf(r: Report): Position {
    Position(Scale(r.x, WIDTH, 1920), Scale(r.y, HEIGHT, 1088))
  }

  // The panel has 1920 by 1088 units, twice the screen's pixels: each coordinate is half of
  // the report's, toward zero, and inside the screen for a report inside the panel.
  lemma HalfThePanel(r: Report)
    ensures var at := PositionOf(r);
      && (0 <= r.x ==> 2 * at.x <= r.x < 2 * at.x + 2) && (r.x < 0 ==> 2 * at.x - 2 < r.x <= 2 * at.x)
      && (0 <= r.y ==> 2 * at.y <= r.y < 2 * at.y + 2) && (r.y < 0 ==> 2 * at.y - 2 < r.y <= 2 * at.y)
      && (0 <= r.x < 1920 && 0 <= r.y < 1088 ==> 0 <= at.x < 960 && 0 <= at.y < 544)
  {
  }

  // The id under which report `i` is forwarded
  function IdOf(frame: seq<Report>, i: nat): (id: nat)
    requires i < |frame| && i < MAX_REPORT
    ensures id < MAX_REPORT && (frame[i].id < 8 ==> id == frame[i].id)
  {
    if frame[i].id >= MAX_REPORT then i else frame[i].id
  }

  function Reports(frame: seq<Report>): (n: nat)
    ensures n <= |frame| && n <= MAX_REPORT
  {
    if |frame| < MAX_REPORT then |frame| else MAX_REPORT
  }

  // The contacts of the first `n` reports
  function Contacts(frame: seq<Report>, n: nat): (c: map<nat, Position>)
    requires n <= Reports(frame)
    ensures forall id :: id in c ==> id < MAX_REPORT
  {
    if n == 0 then map[] else Contacts(frame, n - 1)[IdOf(frame, n - 1) := PositionOf(frame[n - 1])]
  }

  // The positions of the first `n` reports that are forwarded under one id, in order
  function Seen(frame: seq<Report>, n: nat, id: nat): (ps: seq<Position>)
    requires n <= Reports(frame)
  {
    if n == 0 then []
    else if IdOf(frame, n - 1) == id then Seen(frame, n - 1, id) + [PositionOf(frame[n - 1])]
    else Seen(frame, n - 1, id)
  }

  // A contact is where its last report is.
  lemma {:induction false} ContactsAreSeen(frame: seq<Report>, n: nat, id: nat)
    requires n <= Reports(frame)
    ensures id in Contacts(frame, n) <==> Seen(frame, n, id) != []
    ensures id in Contacts(frame, n) ==> Contacts(frame, n)[id] == Seen(frame, n, id)[|Seen(frame, n, id)| - 1]
  {
    if n > 0 {
      ContactsAreSeen(frame, n - 1, id);
    }
  }

  // The active points of the state
  function Active(points: seq<Point>): map<nat, Position> {
    map id: nat | 0 <= id < |points| && points[id].active :: points[id].at
  }

  // The local arrays hold the contacts.
  ghost predicate Marks(present: seq<bool>, at: seq<Position>, contacts: map<nat, Position>) {
    && |present| == |at| == MAX_REPORT
    && (forall id :: id in contacts ==> id < MAX_REPORT)
    && (forall id :: 0 <= id < MAX_REPORT ==> (present[id] <==> id in contacts))
    && (forall id :: 0 <= id < MAX_REPORT && present[id] ==> at[id] == contacts[id])
  }

  /* ---------- What a frame makes of the host ---------- */

  // The host after the event for one report, if there is one
  function AfterReport(host: Option<map<nat, Position>>, point: Point, id: nat, at: Position):
    Option<map<nat, Position>>
  {
    if !point.active then Follow(host, Down(id, at))
    else if point.at != at then Follow(host, Move(id, at))
    else host
  }

  // The host after the first `n` reports
  function AfterReports(host: Option<map<nat, Position>>, points: seq<Point>, frame: seq<Report>, n: nat):
    Option<map<nat, Position>>
    requires |points| == MAX_REPORT && n <= Reports(frame)
  {
    if n == 0 then host
    else
      var id := IdOf(frame, n - 1);
      AfterReport(AfterReports(host, points, frame, n - 1), points[id], id, PositionOf(frame[n - 1]))
  }

  // Point `i` has gone.
  predicate Gone(points: seq<Point>, contacts: map<nat, Position>, i: nat)
    requires i < |points|
  {
    points[i].active && i !in contacts
  }

  // The host after UP of the first `n` points that have gone
  function AfterUps(host: Option<map<nat, Position>>, points: seq<Point>, contacts: map<nat, Position>, n: nat):
    Option<map<nat, Position>>
    requires n <= |points|
  {
    if n == 0 then host
    else
      var before := AfterUps(host, points, contacts, n - 1);
      if Gone(points, contacts, n - 1) then Follow(before, Up(n - 1, points[n - 1].at)) else before
  }

  function AfterFrame(host: Option<map<nat, Position>>, points: seq<Point>, frame: seq<Report>):
    Option<map<nat, Position>>
    requires |points| == MAX_REPORT
  {
    AfterUps(AfterReports(host, points, frame, Reports(frame)), points, Contacts(frame, Reports(frame)), MAX_REPORT)
  }

  // Both sides know the same contacts, perhaps at different positions.
  predicate SameIds(host: map<nat, Position>, points: seq<Point>) {
    host.Keys == Active(points).Keys
  }

  // Where the host sees a contact that was at `stored`: a report there sends nothing.
  function Kept(stored: Position, host: Position, ps: seq<Position>): Position {
    if ps == [] then host
    else if ps[|ps| - 1] != stored then ps[|ps| - 1]
    else Kept(stored, host, ps[..|ps| - 1])
  }

  predicate AllAt(ps: seq<Position>, at: Position) {
    forall k :: 0 <= k < |ps| ==> ps[k] == at
  }

  lemma {:induction false} KeptIs(stored: Position, host: Position, ps: seq<Position>)
    ensures ps != [] && ps[|ps| - 1] != stored ==> Kept(stored, host, ps) == ps[|ps| - 1]
    ensures AllAt(ps, stored) ==> Kept(stored, host, ps) == host
    ensures !AllAt(ps, stored) ==> Kept(stored, host, ps) != stored
  {
    if ps != [] {
      KeptIs(stored, host, ps[..|ps| - 1]);
    }
  }

  // The host after some reports, for one contact
  ghost predicate SeesOne(host: map<nat, Position>, point: Point, after: map<nat, Position>, ps: seq<Position>,
                          id: nat) {
    if point.active then id in host && id in after && after[id] == Kept(point.at, host[id], ps)
    else |ps| <= 1 && (id in after <==> ps != []) && (ps != [] ==> after[id] == ps[0])
  }

  lemma KeptMore(stored: Position, host: Position, ps: seq<Position>, at: Position)
    ensures Kept(stored, host, ps + [at]) == if at != stored then at else Kept(stored, host, ps)
  {
    assert (ps + [at])[..|ps|] == ps;
  }

  lemma {:induction false} ReportsSeen(host: map<nat, Position>, points: seq<Point>, frame: seq<Report>, n: nat,
                                       id: nat)
    requires |points| == MAX_REPORT && n <= Reports(frame) && SameIds(host, points)
    requires AfterReports(Some(host), points, frame, n).Some?
    ensures var after := AfterReports(Some(host), points, frame, n).value;
      if id < MAX_REPORT then SeesOne(host, points[id], after, Seen(frame, n, id), id) else id !in after
  {
    if n == 0 {
      assert id in host <==> id in Active(points);
    } else {
      ReportsSeen(host, points, frame, n - 1, id);
      if id < MAX_REPORT && points[id].active {
        KeptMore(points[id].at, host[id], Seen(frame, n - 1, id), PositionOf(frame[n - 1]));
      }
    }
  }

  // No contact that is new is reported twice.
  ghost predicate NewOnce(points: seq<Point>, frame: seq<Report>, n: nat)
    requires |points| == MAX_REPORT && n <= Reports(frame)
  {
    forall id :: 0 <= id < MAX_REPORT && !points[id].active ==> |Seen(frame, n, id)| <= 1
  }

  lemma {:induction false} ReportsInPlace(host: map<nat, Position>, points: seq<Point>, frame: seq<Report>, n: nat)
    requires |points| == MAX_REPORT && n <= Reports(frame) && SameIds(host, points)
    ensures AfterReports(Some(host), points, frame, n).Some? <==> NewOnce(points, frame, n)
  {
    if n > 0 {
      ReportsInPlace(host, points, frame, n - 1);
      if NewOnce(points, frame, n - 1) {
        ReportsSeen(host, points, frame, n - 1, IdOf(frame, n - 1));
      } else {
        var id :| 0 <= id < MAX_REPORT && !points[id].active && |Seen(frame, n - 1, id)| > 1;
        assert |Seen(frame, n, id)| > 1;
      }
    }
    if AfterReports(Some(host), points, frame, n).Some? {
      forall id | 0 <= id < MAX_REPORT && !points[id].active
        ensures |Seen(frame, n, id)| <= 1
      {
        ReportsSeen(host, points, frame, n, id);
      }
    }
  }

  lemma {:induction false} UpsInPlace(host: map<nat, Position>, points: seq<Point>, contacts: map<nat, Position>,
                                      n: nat)
    requires n <= |points| && forall id :: 0 <= id < |points| && points[id].active ==> id in host
    ensures AfterUps(Some(host), points, contacts, n).Some?
    ensures var after := AfterUps(Some(host), points, contacts, n).value;
      && (forall id :: id in after <==> id in host && !(id < n && Gone(points, contacts, id)))
      && (forall id :: id in after ==> after[id] == host[id])
  {
    if n > 0 {
      UpsInPlace(host, points, contacts, n - 1);
    }
  }

  lemma {:induction false} UpsNeverMend(points: seq<Point>, contacts: map<nat, Position>, n: nat)
    requires n <= |points|
    ensures AfterUps(None, points, contacts, n).None?
  {
    if n > 0 {
      UpsNeverMend(points, contacts, n - 1);
    }
  }

  // The second loop only takes contacts that have gone.
  lemma UpsAfterReports(host: map<nat, Position>, points: seq<Point>, frame: seq<Report>)
    requires |points| == MAX_REPORT && SameIds(host, points)
    requires AfterReports(Some(host), points, frame, Reports(frame)).Some?
    ensures AfterFrame(Some(host), points, frame).Some?
    ensures var reported := AfterReports(Some(host), points, frame, Reports(frame)).value;
      var after, contacts := AfterFrame(Some(host), points, frame).value, Contacts(frame, Reports(frame));
      && (forall id :: id in after <==> id in reported && !(id < MAX_REPORT && Gone(points, contacts, id)))
      && (forall id :: id in after ==> after[id] == reported[id])
  {
    var n := Reports(frame);
    var reported := AfterReports(Some(host), points, frame, n).value;
    forall i | 0 <= i < |points| && points[i].active
      ensures i in reported
    {
      ReportsSeen(host, points, frame, n, i);
    }
    UpsInPlace(reported, points, Contacts(frame, n), MAX_REPORT);
  }

  // The host follows one contact through a frame: a new one is reported once; one that is
  // down leaves its place at the end, or the host had its place and no report left it.
  predicate FollowsOne(host: map<nat, Position>, point: Point, ps: seq<Position>, id: nat) {
    if !point.active then |ps| <= 1
    else
      || ps == []
      || ps[|ps| - 1] != point.at
      || (id in host && host[id] == point.at && AllAt(ps, point.at))
  }

  predicate Follows(host: map<nat, Position>, points: seq<Point>, frame: seq<Report>)
    requires |points| == MAX_REPORT
  {
    forall id :: 0 <= id < MAX_REPORT ==> FollowsOne(host, points[id], Seen(frame, Reports(frame), id), id)
  }

  // The contacts of the host are those of the frame, as long as its events are in place.
  lemma FrameIds(host: map<nat, Position>, points: seq<Point>, frame: seq<Report>)
    requires |points| == MAX_REPORT && SameIds(host, points)
    ensures AfterFrame(Some(host), points, frame).Some? <==> NewOnce(points, frame, Reports(frame))
    ensures AfterFrame(Some(host), points, frame).Some? ==>
              AfterFrame(Some(host), points, frame).value.Keys == Contacts(frame, Reports(frame)).Keys
  {
    var n := Reports(frame);
    var contacts := Contacts(frame, n);
    ReportsInPlace(host, points, frame, n);
    var reported := AfterReports(Some(host), points, frame, n);
    if reported.None? {
      UpsNeverMend(points, contacts, MAX_REPORT);
    } else {
      UpsAfterReports(host, points, frame);
      forall id: nat
        ensures id in AfterFrame(Some(host), points, frame).value <==> id in contacts
      {
        ContactsAreSeen(frame, n, id);
        ReportsSeen(host, points, frame, n, id);
      }
    }
  }

  // Whether the host follows a contact shows in its position.
  lemma PositionAfter(host: map<nat, Position>, points: seq<Point>, frame: seq<Report>, id: nat)
    requires |points| == MAX_REPORT && SameIds(host, points) && id < MAX_REPORT
    requires AfterFrame(Some(host), points, frame).Some?
    ensures var after, contacts := AfterFrame(Some(host), points, frame).value, Contacts(frame, Reports(frame));
      && (id in contacts ==> id in after)
      && (FollowsOne(host, points[id], Seen(frame, Reports(frame), id), id) <==>
            (id in contacts ==> after[id] == contacts[id]))
  {
    FrameIds(host, points, frame);
    var n := Reports(frame);
    var contacts, ps := Contacts(frame, n), Seen(frame, n, id);
    ReportsInPlace(host, points, frame, n);
    var reported := AfterReports(Some(host), points, frame, n).value;
    ReportsSeen(host, points, frame, n, id);
    UpsAfterReports(host, points, frame);
    ContactsAreSeen(frame, n, id);
    if points[id].active {
      KeptIs(points[id].at, host[id], ps);
    }
  }

  // After a frame the host has exactly its contacts at their positions if and only if it
  // could follow each one.
  lemma InStepExactly(host: map<nat, Position>, points: seq<Point>, frame: seq<Report>)
    requires |points| == MAX_REPORT && SameIds(host, points)
    ensures AfterFrame(Some(host), points, frame) == Some(Contacts(frame, Reports(frame))) <==>
            Follows(host, points, frame)
  {
    FrameIds(host, points, frame);
    var n := Reports(frame);
    var contacts, outcome := Contacts(frame, n), AfterFrame(Some(host), points, frame);
    if outcome.None? {
      var id :| 0 <= id < MAX_REPORT && !points[id].active && |Seen(frame, n, id)| > 1;
      assert !FollowsOne(host, points[id], Seen(frame, n, id), id);
    } else {
      forall id | 0 <= id < MAX_REPORT
        ensures id in contacts ==> id in outcome.value
        ensures FollowsOne(host, points[id], Seen(frame, n, id), id) <==>
                (id in contacts ==> outcome.value[id] == contacts[id])
      {
        PositionAfter(host, points, frame, id);
      }
      if Follows(host, points, frame) {
        assert forall id :: id in contacts ==> outcome.value[id] == contacts[id];
        assert outcome.value == contacts;
      }
    }
  }

  // No two reports are forwarded under one id.
  predicate DistinctIds(frame: seq<Report>) {
    forall i, j :: 0 <= i < j < Reports(frame) ==> IdOf(frame, i) != IdOf(frame, j)
  }

  lemma {:induction false} SeenOnce(frame: seq<Report>, n: nat, id: nat)
    requires DistinctIds(frame) && n <= Reports(frame)
    ensures |Seen(frame, n, id)| <= 1
    ensures Seen(frame, n, id) != [] ==> exists i :: 0 <= i < n && IdOf(frame, i) == id
  {
    if n > 0 {
      SeenOnce(frame, n - 1, id);
    }
  }

  // In step, a frame without repeated ids is always followed.
  lemma DistinctFollows(points: seq<Point>, frame: seq<Report>)
    requires |points| == MAX_REPORT && DistinctIds(frame)
    ensures Follows(Active(points), points, frame)
  {
    forall id | 0 <= id < MAX_REPORT
      ensures FollowsOne(Active(points), points[id], Seen(frame, Reports(frame), id), id)
    {
      SeenOnce(frame, Reports(frame), id);
    }
  }

  // Both theorems, for a host that may have met an event out of place before
  lemma FrameOutcome(host: Option<map<nat, Position>>, points: seq<Point>, frame: seq<Report>)
    requires |points| == MAX_REPORT && (host.Some? ==> SameIds(host.value, points))
    ensures var contacts, outcome := Contacts(frame, Reports(frame)), AfterFrame(host, points, frame);
      && (outcome == Some(contacts) <==> host.Some? && Follows(host.value, points, frame))
      && (outcome.Some? <==> host.Some? && NewOnce(points, frame, Reports(frame)))
      && (outcome.Some? ==> outcome.value.Keys == contacts.Keys)
    ensures host == Some(Active(points)) && DistinctIds(frame) ==> Follows(host.value, points, frame)
  {
    if host.Some? {
      FrameIds(host.value, points, frame);
      InStepExactly(host.value, points, frame);
    } else {
      NeverMends(points, frame, Reports(frame));
      UpsNeverMend(points, Contacts(frame, Reports(frame)), MAX_REPORT);
    }
    if DistinctIds(frame) {
      DistinctFollows(points, frame);
    }
  }

  lemma {:induction false} NeverMends(points: seq<Point>, frame: seq<Report>, n: nat)
    requires |points| == MAX_REPORT && n <= Reports(frame)
    ensures AfterReports(None, points, frame, n).None?
  {
    if n > 0 {
      NeverMends(points, frame, n - 1);
    }
  }

  lemma AllUp(host: Option<map<nat, Position>>, points: seq<Point>)
    requires |points| == MAX_REPORT && (host.Some? ==> SameIds(host.value, points))
    ensures AfterUps(host, points, map[], MAX_REPORT) == if host.Some? then Some(map[]) else None
  {
    if host.Some? {
      assert forall id :: id in host.value <==> id in Active(points);
      UpsInPlace(host.value, points, map[], MAX_REPORT);
      assert AfterUps(host, points, map[], MAX_REPORT).value == map[];
    } else {
      UpsNeverMend(points, map[], MAX_REPORT);
    }
  }

  class Touch {
    const points: array<Point>
    const mode: int
    var active: bool

    // The events sent so far
    ghost var sent: seq<Event>

    ghost predicate Shape()
      reads this
    {
      points.Length == MAX_REPORT && (mode == 1 || mode == 3)
    }

    // As long as the events are in place, the host has the active points' contacts.
    ghost predicate Valid()
      reads this, points
    {
      Shape() && (Replay(sent).Some? ==> SameIds(Replay(sent).value, points[..]))
    }

    // The host has them at the same positions.
    ghost predicate InStep()
      reads this, points
    {
      Replay(sent) == Some(Active(points[..]))
    }

    // vita_touch_configure and vita_touch_init, for mode 1 or 3
    constructor (mode: int)
      requires mode == 1 || mode == 3
      ensures Valid() && InStep() && fresh(points) && this.mode == mode && sent == [] && !active
      ensures Active(points[..]) == map[]
    {
      points := new Point[MAX_REPORT](_ => UP);
      this.mode, active, sent := mode, false, [];
      new;
      assert Active(points[..]) == map[];
    }

    // send_touch_event
    ghost method Send(e: Event)
      modifies `sent
      ensures sent == old(sent) + [e] && Replay(sent) == Follow(Replay(old(sent)), e)
    {
      ReplayMore(sent, e);
      sent := sent + [e];
    }

    // The event for one report, if it is due
    method SendContact(id: nat, at: Position)
      requires id < points.Length
      modifies `sent
      ensures Replay(sent) == AfterReport(Replay(old(sent)), points[id], id, at) && old(sent) <= sent
    {
      if !points[id].active {
        Send(Down(id, at));
      } else if points[id].at != at {
        Send(Move(id, at));
      }
    }

    // The first loop of process_touch_points
    method SendContacts(frame: seq<Report>, present: array<bool>, at: array<Position>)
      requires Shape() && present.Length == at.Length == MAX_REPORT
      requires forall id :: 0 <= id < MAX_REPORT ==> !present[id]
      modifies `sent, present, at
      ensures Marks(present[..], at[..], Contacts(frame, Reports(frame))) && old(sent) <= sent
      ensures Replay(sent) == AfterReports(Replay(old(sent)), points[..], frame, Reports(frame))
    {
      var i := 0;
      while i < |frame| && i < MAX_REPORT
        modifies `sent, present, at
        invariant 0 <= i <= Reports(frame) && old(sent) <= sent
        invariant Marks(present[..], at[..], Contacts(frame, i))
        invariant Replay(sent) == AfterReports(Replay(old(sent)), points[..], frame, i)
      {
        var id := frame[i].id;
        if id >= MAX_REPORT {
          id := i;
        }
        var position := PositionOf(frame[i]);
        Mark(present, at, id, position, Contacts(frame, i));
        SendContact(id, position);
        i := i + 1;
      }
    }

    static method Mark(present: array<bool>, at: array<Position>, id: nat, position: Position,
                       ghost contacts: map<nat, Position>)
      requires id < MAX_REPORT && Marks(present[..], at[..], contacts)
      modifies present, at
      ensures Marks(present[..], at[..], contacts[id := position])
    {
      present[id] := true;
      at[id] := position;
    }

    // The second loop of process_touch_points
    method SendUps(present: array<bool>, at: array<Position>, ghost contacts: map<nat, Position>)
      requires Shape() && Marks(present[..], at[..], contacts)
      modifies `sent, points
      ensures Active(points[..]) == contacts && old(sent) <= sent
      ensures Replay(sent) == AfterUps(Replay(old(sent)), old(points[..]), contacts, MAX_REPORT)
    {
      ghost var was := points[..];
      var i := 0;
      while i < MAX_REPORT
        modifies `sent, points
        invariant 0 <= i <= MAX_REPORT && old(sent) <= sent
        invariant Replay(sent) == AfterUps(Replay(old(sent)), was, contacts, i)
        invariant forall id :: 0 <= id < i ==> points[id] == Point(present[id], at[id])
        invariant forall id :: i <= id < MAX_REPORT ==> points[id] == was[id]
      {
        if points[i].active && !present[i] {
          Send(Up(i, points[i].at));
        }
        points[i] := Point(present[i], at[i]);
        i := i + 1;
      }
    }

    // process_touch_points. The points are those of the frame; so is the host if and only
    // if it can follow the frame.
    method Process(frame: seq<Report>)
      requires Valid()
      modifies `sent, points
      ensures Valid() && Active(points[..]) == Contacts(frame, Reports(frame)) && old(sent) <= sent
      ensures Replay(sent) == AfterFrame(Replay(old(sent)), old(points[..]), frame)
      ensures InStep() <==> Replay(old(sent)).Some? && Follows(Replay(old(sent)).value, old(points[..]), frame)
      ensures Replay(sent).Some? <==>
              Replay(old(sent)).Some? && NewOnce(old(points[..]), frame, Reports(frame))
      ensures old(InStep()) && DistinctIds(frame) ==> InStep()
    {
      ghost var host, was := Replay(sent), points[..];
      var present := new bool[MAX_REPORT](_ => false);
      var at := new Position[MAX_REPORT](_ => Position(0, 0));
      SendContacts(frame, present, at);
      SendUps(present, at, Contacts(frame, Reports(frame)));
      FrameOutcome(host, was, frame);
    }

    // release_touch_state, without the mouse button: no contact is left.
    method Release()
      requires Valid()
      modifies `sent, points
      ensures Valid() && old(sent) <= sent && forall i :: 0 <= i < MAX_REPORT ==> points[i] == UP
      ensures Replay(sent) == if Replay(old(sent)).Some? then Some(map[]) else None
    {
      ghost var host := Replay(sent);
      if mode == 1 {
        var i := 0;
        while i < MAX_REPORT
          modifies `sent
          invariant 0 <= i <= MAX_REPORT && old(sent) <= sent
          invariant Replay(sent) == AfterUps(host, points[..], map[], i)
        {
          if points[i].active {
            Send(Up(i, points[i].at));
          }
          i := i + 1;
        }
        AllUp(host, points[..]);
      } else if mode == 3 {
        Send(CancelAll);
      }
      forall i | 0 <= i < MAX_REPORT {
        points[i] := UP;
      }
      assert Active(points[..]) == map[];
    }

    // vita_touch_start, once initialized
    method Start()
      requires Valid()
      modifies `active, `sent, points
      ensures Valid() && active && old(sent) <= sent && Active(points[..]) == map[]
      ensures Replay(old(sent)).Some? ==> InStep()
    {
      Release();
      active := true;
      assert Active(points[..]) == map[];
    }

    // vita_touch_stop
    method Stop()
      requires Valid()
      modifies `active, `sent, points
      ensures Valid() && !active && old(sent) <= sent
      ensures !old(active) ==> sent == old(sent) && points[..] == old(points[..])
      ensures old(active) ==> Active(points[..]) == map[] && (Replay(old(sent)).Some? ==> InStep())
    {
      if !active {
        return;
      }
      active := false;
      Release();
      assert Active(points[..]) == map[];
    }

    // vita_touch_process; `peeked` is what reading the panel returned.
    method Poll(peeked: int, frame: seq<Report>)
      requires Valid()
      modifies `sent, points
      ensures Valid() && old(sent) <= sent
      ensures !active || peeked < 0 ==> sent == old(sent) && points[..] == old(points[..])
      ensures active && peeked >= 0 ==>
        && Active(points[..]) == Contacts(frame, Reports(frame))
        && Replay(sent) == AfterFrame(Replay(old(sent)), old(points[..]), frame)
        && (InStep() <==> Replay(old(sent)).Some? && Follows(Replay(old(sent)).value, old(points[..]), frame))
    {
      if !active {
        return;
      }
      if peeked < 0 {
        return;
      }
      Process(frame);
    }
  }

  lemma TwoReports(host: Option<map<nat, Position>>, points: seq<Point>, a: Report, b: Report)
    requires |points| == MAX_REPORT
    ensures var frame := [a, b];
      && Reports(frame) == 2
      && Contacts(frame, 2) == map[IdOf(frame, 0) := PositionOf(a)][IdOf(frame, 1) := PositionOf(b)]
      && AfterReports(host, points, frame, 2)
         == AfterReport(AfterReport(host, points[IdOf(frame, 0)], IdOf(frame, 0), PositionOf(a)),
                        points[IdOf(frame, 1)], IdOf(frame, 1), PositionOf(b))
  {
    var frame := [a, b];
    assert Contacts(frame, 0) == map[];
    assert Contacts(frame, 1) == map[IdOf(frame, 0) := PositionOf(a)];
    assert AfterReports(host, points, frame, 0) == host;
    assert AfterReports(host, points, frame, 1)
        == AfterReport(host, points[IdOf(frame, 0)], IdOf(frame, 0), PositionOf(a));
  }

  lemma OneReport(a: Report)
    ensures Contacts([a], Reports([a])) == map[IdOf([a], 0) := PositionOf(a)]
  {
    assert Contacts([a], 0) == map[];
    assert Contacts([a], 1) == map[IdOf([a], 0) := PositionOf(a)];
  }

  const COLLIDING := [Report(1, 10, 10), Report(9, 0, 0)]

  lemma CollidingMoves(points: seq<Point>)
    requires |points| == MAX_REPORT && Active(points) == map[1 := Position(0, 0)]
    ensures Contacts(COLLIDING, Reports(COLLIDING)) == map[1 := Position(0, 0)]
    ensures AfterFrame(Some(Active(points)), points, COLLIDING) == Some(map[1 := Position(5, 5)])
  {
    var host := Active(points);
    TwoReports(Some(host), points, Report(1, 10, 10), Report(9, 0, 0));
    assert 1 in host && points[1] == Point(true, Position(0, 0));
    assert AfterReports(Some(host), points, COLLIDING, 2) == Some(host[1 := Position(5, 5)]);
    UpsAfterReports(host, points, COLLIDING);
    assert AfterFrame(Some(host), points, COLLIDING).value == map[1 := Position(5, 5)];
  }

  lemma CollidingDowns(points: seq<Point>)
    requires |points| == MAX_REPORT && Active(points) == map[]
    ensures AfterFrame(Some(map[]), points, COLLIDING).None?
  {
    TwoReports(Some(map[]), points, Report(1, 10, 10), Report(9, 0, 0));
    assert !points[1].active by {
      assert 1 !in Active(points);
    }
    assert AfterReports(Some(map[]), points, COLLIDING, 2).None?;
    UpsNeverMend(points, Contacts(COLLIDING, 2), MAX_REPORT);
  }

  // Contact 1 is down. Its panel reports it elsewhere, and its second report has an id
  // that is too large, which is forwarded under index 1, at the old place: only a MOVE to
  // the first place is sent, while the old one is stored.
  method LaterReportIsLost() returns (t: Touch)
    ensures t.Valid() && !t.InStep()
    ensures Replay(t.sent) == Some(map[1 := Position(5, 5)]) && Active(t.points[..]) == map[1 := Position(0, 0)]
  {
    t := new Touch(3);
    OneReport(Report(1, 0, 0));
    t.Process([Report(1, 0, 0)]);
    CollidingMoves(t.points[..]);
    t.Process(COLLIDING);
    assert Replay(t.sent).value[1] != Active(t.points[..])[1];
  }

  // The same frame on a free panel sends DOWN twice, which no host expects.
  method DownTwice() returns (t: Touch)
    ensures t.Valid() && Replay(t.sent).None?
  {
    t := new Touch(3);
    CollidingDowns(t.points[..]);
    t.Process(COLLIDING);
  }
}
