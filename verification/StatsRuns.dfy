// Whole runs of the recorders of src/moonlight/stream_stats.c: calls of any threads in the
// order of their critical sections, over several sessions, with readings at any time.
module StatsRuns {
  import opened StreamStats
  import opened StatsRecorder

  // A call, with its readings of the clock; Look is a reading of the statistics, which
  // advances the buckets and books nothing. A session reads the clock before it takes the
  // mutex, so its reading may be earlier than that of the call before it.
  datatype Call =
    | Begin(now: nat, showFps: bool, vblank: bool)
    | End(generation: nat)
    | Frame(generation: nat, frame: nat, bytes: nat, latency: nat, receiveUs: nat, enqueueUs: nat, now: nat,
            video: nat)
    | Other(generation: nat, event: Event, now: nat)
    | Look(now: nat)

  // What the calls come to: the session, the accepted events and the received frames.
  datatype Book = Book(session: Session, log: seq<Entry>, frames: seq<nat>, started: nat, lastVideo: nat)

  const UNUSED := Book(NO_SESSION, [], [], 0, 0)

  predicate IsCall(c: Call) {
    (c.Frame? ==> c.frame < WORD) && (c.Other? ==> !c.event.Received?)
  }

  // An event is booked if it is of the running session's generation, and otherwise lost.
  function Booked(b: Book, c: Call): Book
    requires IsCall(c) && Words(b.frames)
  {
    match c
    case Begin(now, showFps, vblank) =>
      var g := NextGeneration(b.session.generation);
      Book(NO_SESSION.(generation := g, enabled := showFps, active := true, vblankWait := vblank), [], [], now, 0)
    case End(g) => if Accepts(b.session, g) then b.(session := b.session.(active := false)) else b
    case Frame(g, frame, bytes, latency, receiveUs, enqueueUs, now, video) =>
      if !Accepts(b.session, g) then b
      else
        var entry := FrameEntry(b.session, b.frames, frame, bytes, latency, receiveUs, enqueueUs, now);
        b.(session := SessionAfter(b.session, entry), log := b.log + [entry], frames := b.frames + [frame],
           lastVideo := video)
    case Other(g, event, now) =>
      if !Accepts(b.session, g) then b
      else
        var entry := Entry(now, event, b.session.enabled, b.session.vblankWait);
        b.(session := SessionAfter(b.session, entry), log := b.log + [entry])
    case Look(_) => b
  }

  function BookOf(calls: seq<Call>): (b: Book)
    requires forall i :: 0 <= i < |calls| ==> IsCall(calls[i])
    ensures Words(b.frames)
  {
    if calls == [] then UNUSED else Booked(BookOf(calls[..|calls| - 1]), calls[|calls| - 1])
  }

  // How many sessions have begun, and the generation of the last one: 32 bits, without 0
  function Begins(calls: seq<Call>): nat {
    if calls == [] then 0 else Begins(calls[..|calls| - 1]) + if calls[|calls| - 1].Begin? then 1 else 0
  }

  function GenerationOf(begins: nat): nat {
    if begins == 0 then 0 else 1 + (begins - 1) % (WORD - 1)
  }

  // The generation whose session has begun and not ended.
  function Running(calls: seq<Call>): nat {
    if calls == [] then 0
    else
      var rest, c := calls[..|calls| - 1], calls[|calls| - 1];
      if c.Begin? then GenerationOf(Begins(calls))
      else if c.End? && c.generation == Running(rest) then 0
      else Running(rest)
  }

  lemma GenerationNext(n: nat)
    ensures NextGeneration(GenerationOf(n)) == GenerationOf(n + 1)
    ensures 0 < GenerationOf(n + 1) < WORD
  {
    if n > 0 {
      var r := (n - 1) % (WORD - 1);
      assert n % (WORD - 1) == if r + 1 == WORD - 1 then 0 else r + 1;
    }
  }

  // Events are accepted exactly with the generation of the session that runs.
  lemma {:induction false} AcceptedIsRunning(calls: seq<Call>, g: nat)
    requires forall i :: 0 <= i < |calls| ==> IsCall(calls[i])
    ensures BookOf(calls).session.generation == GenerationOf(Begins(calls))
    ensures Accepts(BookOf(calls).session, g) <==> g != 0 && g == Running(calls)
  {
    if calls != [] {
      var rest := calls[..|calls| - 1];
      AcceptedIsRunning(rest, g);
      GenerationNext(Begins(rest));
      if calls[|calls| - 1].End? {
        AcceptedIsRunning(rest, calls[|calls| - 1].generation);
      }
    }
  }

  // The last reading of the clock, when the calls' readings are in order.
  function Latest(c: Call, latest: nat): nat {
    match c
    case Begin(now, _, _) => Max(now, latest)
    case End(_) => latest
    case Frame(_, _, _, _, _, _, now, video) => video
    case Other(_, _, now) => now
    case Look(now) => now
  }

  predicate Follows(c: Call, latest: nat) {
    (c.Frame? ==> latest <= c.now <= c.video) && (c.Other? || c.Look? ==> latest <= c.now)
  }

  function LatestOf(calls: seq<Call>): nat {
    if calls == [] then 0 else Latest(calls[|calls| - 1], LatestOf(calls[..|calls| - 1]))
  }

  predicate Ordered(calls: seq<Call>) {
    calls != [] ==>
      var n := |calls| - 1;
      Ordered(calls[..n]) && Follows(calls[n], LatestOf(calls[..n]))
  }

  // The recorder is where the calls lead.
  ghost predicate At(r: Recorder, b: Book, latest: nat)
    reads r, r.buckets
  {
    && r.Valid() && r.session == b.session && r.buckets.log == b.log && r.frames == b.frames
    && r.buckets.startUs == b.started && r.lastVideoUs == b.lastVideo && r.buckets.clock <= latest
  }

  method Do(r: Recorder, c: Call, ghost b: Book, ghost latest: nat)
    requires At(r, b, latest) && IsCall(c) && Follows(c, latest)
    modifies r, r.buckets
    ensures At(r, Booked(b, c), Latest(c, latest))
  {
    match c {
      case Begin(now, showFps, vblank) =>
        var started := r.Begin(now, showFps, vblank);
      case End(g) =>
        r.End(g);
      case Frame(g, frame, bytes, latency, receiveUs, enqueueUs, now, video) =>
        r.RecordReceived(g, frame, bytes, latency, receiveUs, enqueueUs, now, video);
      case Other(g, event, now) =>
        r.Record(g, event, now);
      case Look(now) =>
        var stats, duration, age := r.Snapshot(now);
    }
  }

  lemma {:induction false} OrderedPrefix(calls: seq<Call>, i: nat)
    requires Ordered(calls) && i <= |calls|
    ensures Ordered(calls[..i])
    decreases |calls|
  {
    if i == |calls| {
      assert calls[..i] == calls;
    } else {
      var n := |calls| - 1;
      OrderedPrefix(calls[..n], i);
      assert calls[..n][..i] == calls[..i];
    }
  }

  method Perform(calls: seq<Call>) returns (r: Recorder)
    requires (forall i :: 0 <= i < |calls| ==> IsCall(calls[i])) && Ordered(calls)
    ensures fresh(r) && fresh(r.buckets) && At(r, BookOf(calls), LatestOf(calls))
  {
    r := new Recorder();
    var i := 0;
    while i < |calls|
      modifies r, r.buckets
      invariant 0 <= i <= |calls| && fresh(r) && fresh(r.buckets)
      invariant At(r, BookOf(calls[..i]), LatestOf(calls[..i]))
    {
      OrderedPrefix(calls, i + 1);
      assert calls[..i + 1][..i] == calls[..i];
      Do(r, calls[i], BookOf(calls[..i]), LatestOf(calls[..i]));
      i := i + 1;
    }
    assert calls[..i] == calls;
  }

  // After any calls, a reading shows the rates of the events that were accepted since the
  // start of the session, within the span of the reading, and the frames that were lost.
  method Run(calls: seq<Call>, now: nat) returns (r: Recorder, stats: Stats, duration: nat, videoAge: int)
    requires (forall i :: 0 <= i < |calls| ==> IsCall(calls[i])) && Ordered(calls) && LatestOf(calls) <= now
    ensures var b := BookOf(calls);
      && r.session == b.session && b.started <= now && duration == Span(b.started, now)
      && stats == StatsOf(Window(b.log, now - duration, now + 1), duration)
      && videoAge == (if b.session.hasVideo then now - b.lastVideo else 0)
      && SessionTally(b.session) == TallyOf(b.log) && b.session.missing == LossOf(b.frames).missing
  {
    r := Perform(calls);
    stats, duration, videoAge := r.Snapshot(now);
  }
}
