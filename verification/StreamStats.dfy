// The statistics of src/moonlight/stream_stats.c: counters of the current and of the
// previous second, and the frame loss count, updated in place by the recorders.
//
// Readings of the clock are parameters. Counters and the clock, 64 bits wide in the
// source, are unbounded here; frame numbers and generations are 32-bit words.
module StreamStats {
  const SECOND := 1000000
  const WORD := 0x1_0000_0000
  const HALF := 0x8000_0000

  /* ---------- Buckets ---------- */

  datatype Timing = Timing(samples: nat, total: nat, maximum: nat)

  datatype VideoTimings = VideoTimings(reassembly: Timing, decode: Timing, prequeue: Timing, vblank: Timing)

  datatype OutputTimings = OutputTimings(pafQueue: Timing, pafCpu: Timing, audioDecode: Timing, audioOutput: Timing)

  datatype Timings = Timings(video: VideoTimings, output: OutputTimings)

  datatype Frames = Frames(received: nat, decoded: nat, presented: nat, queued: nat)

  datatype Traffic = Traffic(bytes: nat, missing: nat, pacerDrops: nat, replacements: nat)

  datatype HostLatency = HostLatency(samples: nat, total: nat, least: nat, most: nat)

  datatype Bucket = Bucket(frames: Frames, traffic: Traffic, host: HostLatency, timing: Timings)

  const NEVER := Timing(0, 0, 0)
  const NO_VIDEO := VideoTimings(NEVER, NEVER, NEVER, NEVER)
  const NO_OUTPUT := OutputTimings(NEVER, NEVER, NEVER, NEVER)
  const NO_TIMES := Timings(NO_VIDEO, NO_OUTPUT)
  const NOTHING := Bucket(Frames(0, 0, 0, 0), Traffic(0, 0, 0, 0), HostLatency(0, 0, 0, 0), NO_TIMES)

  function Max(a: nat, b: nat): nat {
    if a > b then a else b
  }

  function AddTiming(a: Timing, b: Timing): Timing {
    Timing(a.samples + b.samples, a.total + b.total, Max(a.maximum, b.maximum))
  }

  function AddTimings(a: Timings, b: Timings): Timings {
    var u, v, x, y := a.video, b.video, a.output, b.output;
    Timings(VideoTimings(AddTiming(u.reassembly, v.reassembly), AddTiming(u.decode, v.decode),
                         AddTiming(u.prequeue, v.prequeue), AddTiming(u.vblank, v.vblank)),
            OutputTimings(AddTiming(x.pafQueue, y.pafQueue), AddTiming(x.pafCpu, y.pafCpu),
                          AddTiming(x.audioDecode, y.audioDecode), AddTiming(x.audioOutput, y.audioOutput)))
  }

  function AddFrames(a: Frames, b: Frames): Frames {
    Frames(a.received + b.received, a.decoded + b.decoded, a.presented + b.presented, a.queued + b.queued)
  }

  function AddTraffic(a: Traffic, b: Traffic): Traffic {
    Traffic(a.bytes + b.bytes, a.missing + b.missing, a.pacerDrops + b.pacerDrops, a.replacements + b.replacements)
  }

  // Of two least latencies, of which either may be that of no sample.
  function Least(a: HostLatency, b: HostLatency): nat {
    if b.samples == 0 then a.least
    else if a.samples == 0 || b.least < a.least then b.least
    else a.least
  }

  function AddHost(a: HostLatency, b: HostLatency): HostLatency {
    HostLatency(a.samples + b.samples, a.total + b.total, Least(a, b), Max(a.most, b.most))
  }

  function Add(a: Bucket, b: Bucket): Bucket {
    Bucket(AddFrames(a.frames, b.frames), AddTraffic(a.traffic, b.traffic), AddHost(a.host, b.host),
           AddTimings(a.timing, b.timing))
  }

  lemma AddNothing(a: Bucket)
    ensures Add(a, NOTHING) == a
  {
  }

  /* ---------- Events ---------- */

  datatype Event =
    | Received(bytes: nat, lost: nat, latency: nat, receiveUs: nat, enqueueUs: nat)
    | Decoded(callUs: nat, outputs: nat, failed: bool, pacerDrop: bool)
    | Prepared(prepareUs: nat, vblankUs: nat)
    | Queued(replaced: bool)
    | Presented(queueUs: nat, cpuUs: nat)
    | AudioDecoded(decodeUs: nat)
    | AudioPlayed(outputUs: nat)

  // An event, with the settings that decide what of it is counted.
  datatype Entry = Entry(time: nat, event: Event, enabled: bool, vblankWait: bool)

  function Note(t: Timing, us: nat): Timing {
    Timing(t.samples + 1, t.total + us, Max(t.maximum, us))
  }

  function NoteHost(h: HostLatency, latency: nat): HostLatency {
    HostLatency(h.samples + 1, h.total + latency, if h.samples == 0 || latency < h.least then latency else h.least,
                Max(h.most, latency))
  }

  // A bucket with one more received frame, before which `lost` frames are missing.
  // Latencies and times are counted only when the overlay is enabled.
  function CountReceived(b: Bucket, e: Event, enabled: bool): Bucket
    requires e.Received?
  {
    Bucket(b.frames.(received := b.frames.received + 1),
           b.traffic.(bytes := b.traffic.bytes + e.bytes, missing := b.traffic.missing + e.lost),
           if enabled && e.latency != 0 then NoteHost(b.host, e.latency) else b.host,
           if enabled && e.enqueueUs >= e.receiveUs
           then b.timing.(video := b.timing.video.(reassembly :=
                            Note(b.timing.video.reassembly, e.enqueueUs - e.receiveUs)))
           else b.timing)
  }

  function CountDecode(b: Bucket, e: Event): Bucket
    requires e.Decoded?
  {
    var outputs := if e.failed then 0 else e.outputs;
    Bucket(b.frames.(decoded := b.frames.decoded + outputs),
           if e.pacerDrop then b.traffic.(pacerDrops := b.traffic.pacerDrops + outputs) else b.traffic, b.host,
           b.timing.(video := b.timing.video.(decode := Note(b.timing.video.decode, e.callUs))))
  }

  function CountPrepared(b: Bucket, e: Event, vblankWait: bool): Bucket
    requires e.Prepared?
  {
    var v := b.timing.video.(prequeue := Note(b.timing.video.prequeue, e.prepareUs));
    b.(timing := b.timing.(video := if vblankWait then v.(vblank := Note(v.vblank, e.vblankUs)) else v))
  }

  function CountQueued(b: Bucket, e: Event): Bucket
    requires e.Queued?
  {
    b.(frames := b.frames.(queued := b.frames.queued + 1),
       traffic := if e.replaced then b.traffic.(replacements := b.traffic.replacements + 1) else b.traffic)
  }

  function CountPresented(b: Bucket, e: Event): Bucket
    requires e.Presented?
  {
    var o := b.timing.output;
    b.(frames := b.frames.(presented := b.frames.presented + 1),
       timing := b.timing.(output := o.(pafQueue := Note(o.pafQueue, e.queueUs), pafCpu := Note(o.pafCpu, e.cpuUs))))
  }

  function CountAudio(b: Bucket, e: Event): Bucket
    requires e.AudioDecoded? || e.AudioPlayed?
  {
    var o := b.timing.output;
    b.(timing := b.timing.(output := if e.AudioDecoded? then o.(audioDecode := Note(o.audioDecode, e.decodeUs))
                                     else o.(audioOutput := Note(o.audioOutput, e.outputUs))))
  }

  // A bucket that counts one more event.
  function Count(b: Bucket, x: Entry): Bucket {
    if x.event.Received? then CountReceived(b, x.event, x.enabled)
    else if x.event.Decoded? then CountDecode(b, x.event)
    else if x.event.Prepared? then CountPrepared(b, x.event, x.vblankWait)
    else if x.event.Queued? then CountQueued(b, x.event)
    else if x.event.Presented? then CountPresented(b, x.event)
    else CountAudio(b, x.event)
  }

  lemma VideoAdds(a: Bucket, b: Bucket, e: Event, vblankWait: bool)
    ensures e.Decoded? ==> CountDecode(Add(a, b), e) == Add(a, CountDecode(b, e))
    ensures e.Prepared? ==> CountPrepared(Add(a, b), e, vblankWait) == Add(a, CountPrepared(b, e, vblankWait))
  {
  }

  // Counting and adding buckets can change places.
  lemma CountAdds(a: Bucket, b: Bucket, x: Entry)
    ensures Count(Add(a, b), x) == Add(a, Count(b, x))
  {
    if x.event.Decoded? || x.event.Prepared? {
      VideoAdds(a, b, x.event, x.vblankWait);
    }
  }

  /* ---------- The log ---------- */

  // What counts the entries with from <= time < to.
  function Window(log: seq<Entry>, from: int, to: int): Bucket {
    if log == [] then NOTHING
    else
      var rest, last := Window(log[..|log| - 1], from, to), log[|log| - 1];
      if from <= last.time < to then Count(rest, last) else rest
  }

  ghost predicate InOrder(log: seq<Entry>) {
    forall i, j :: 0 <= i < j < |log| ==> log[i].time <= log[j].time
  }

  ghost predicate Within(log: seq<Entry>, from: int, to: int) {
    forall i :: 0 <= i < |log| ==> from <= log[i].time < to
  }

  lemma {:induction false} EmptyWindow(log: seq<Entry>, from: int, to: int, lo: int, hi: int)
    requires Within(log, lo, hi) && (to <= lo || hi <= from)
    ensures Window(log, from, to) == NOTHING
  {
    if log != [] {
      EmptyWindow(log[..|log| - 1], from, to, lo, hi);
    }
  }

  // Two adjacent windows add up to one.
  lemma {:induction false} WindowsAdd(log: seq<Entry>, from: int, mid: int, to: int)
    requires InOrder(log) && from <= mid <= to
    ensures Window(log, from, to) == Add(Window(log, from, mid), Window(log, mid, to))
  {
    if log == [] {
      AddNothing(NOTHING);
    } else {
      WindowsAdd(log[..|log| - 1], from, mid, to);
      if log[|log| - 1].time < mid {
        EarlyEntry(log, from, mid, to);
      } else {
        LateEntry(log, from, mid, to);
      }
    }
  }

  lemma {:induction false} EarlyEntry(log: seq<Entry>, from: int, mid: int, to: int)
    requires InOrder(log) && from <= mid <= to && log != [] && log[|log| - 1].time < mid
    ensures Window(log, from, to) == Add(Window(log, from, mid), Window(log, mid, to))
  {
    EmptyWindow(log, mid, to, 0, mid);
    SameWindow(log, from, to, mid);
    AddNothing(Window(log, from, mid));
  }

  // The last entry is counted in every window that it is in.
  lemma LastCounted(log: seq<Entry>, from: int, to: int)
    requires log != []
    ensures var rest, last := log[..|log| - 1], log[|log| - 1];
      Window(log, from, to) ==
        if from <= last.time < to then Count(Window(rest, from, to), last) else Window(rest, from, to)
  {
  }

  lemma LateEntry(log: seq<Entry>, from: int, mid: int, to: int)
    requires from <= mid <= to && log != [] && mid <= log[|log| - 1].time
    requires var rest := log[..|log| - 1];
      Window(rest, from, to) == Add(Window(rest, from, mid), Window(rest, mid, to))
    ensures Window(log, from, to) == Add(Window(log, from, mid), Window(log, mid, to))
  {
    var rest, last := log[..|log| - 1], log[|log| - 1];
    LastCounted(log, from, to);
    LastCounted(log, from, mid);
    LastCounted(log, mid, to);
    if last.time < to {
      CountAdds(Window(rest, from, mid), Window(rest, mid, to), last);
    }
  }

  // Where a window ends does not matter when no entry is later.
  lemma {:induction false} SameWindow(log: seq<Entry>, from: int, to: int, hi: int)
    requires Within(log, 0, hi) && hi <= to
    ensures Window(log, from, to) == Window(log, from, hi)
  {
    if log != [] {
      SameWindow(log[..|log| - 1], from, to, hi);
    }
  }

  lemma WindowAppend(log: seq<Entry>, e: Entry, from: int, to: int)
    ensures Window(log + [e], from, to) ==
            if from <= e.time < to then Count(Window(log, from, to), e) else Window(log, from, to)
  {
    assert (log + [e])[..|log|] == log;
  }

  // What a session counts of all entries.
  datatype Tally = Tally(received: nat, missing: nat, pacerDrops: nat, replacements: nat)

  function CountTally(t: Tally, x: Entry): Tally {
    var e := x.event;
    if e.Received? then t.(received := t.received + 1, missing := t.missing + e.lost)
    else if e.Decoded? && !e.failed && e.pacerDrop then t.(pacerDrops := t.pacerDrops + e.outputs)
    else if e.Queued? && e.replaced then t.(replacements := t.replacements + 1)
    else t
  }

  function TallyOf(log: seq<Entry>): Tally {
    if log == [] then Tally(0, 0, 0, 0) else CountTally(TallyOf(log[..|log| - 1]), log[|log| - 1])
  }

  lemma TallyAppend(log: seq<Entry>, x: Entry)
    ensures TallyOf(log + [x]) == CountTally(TallyOf(log), x)
  {
    assert (log + [x])[..|log|] == log;
  }

  function BucketTally(b: Bucket): Tally {
    Tally(b.frames.received, b.traffic.missing, b.traffic.pacerDrops, b.traffic.replacements)
  }

  // The session counts the same as all buckets together.
  lemma {:induction false} TallyIsTotal(log: seq<Entry>, from: int, to: int)
    requires Within(log, from, to)
    ensures TallyOf(log) == BucketTally(Window(log, from, to))
  {
    if log != [] {
      TallyIsTotal(log[..|log| - 1], from, to);
    }
  }

  /* ---------- Two buckets for a sliding window ---------- */

  // The second after `bucketStart` contains the clock; the buckets hold that second and
  // the one before.
  ghost predicate Buckets(log: seq<Entry>, start: nat, bucketStart: nat, clock: nat, current: Bucket,
                          previous: Bucket) {
    && start <= bucketStart <= clock < bucketStart + SECOND
    && (bucketStart == start || start <= bucketStart - SECOND)
    && Within(log, start, clock + 1) && InOrder(log)
    && current == Window(log, bucketStart, bucketStart + SECOND)
    && previous == Window(log, bucketStart - SECOND, bucketStart)
  }

  lemma NewBuckets(start: nat)
    ensures Buckets([], start, start, start, NOTHING, NOTHING)
  {
  }

  // What advance_window does with the buckets for a clock in a later second.
  lemma AdvanceKeeps(log: seq<Entry>, start: nat, bucketStart: nat, clock: nat, current: Bucket, previous: Bucket,
                     now: nat, steps: nat)
    requires Buckets(log, start, bucketStart, clock, current, previous) && clock <= now
    requires bucketStart + steps * SECOND <= now < bucketStart + (steps + 1) * SECOND
    ensures steps == 0 ==> Buckets(log, start, bucketStart, now, current, previous)
    ensures steps == 1 ==> Buckets(log, start, bucketStart + SECOND, now, NOTHING, current)
    ensures steps > 1 ==> Buckets(log, start, bucketStart + steps * SECOND, now, NOTHING, NOTHING)
  {
    var next := bucketStart + steps * SECOND;
    if steps > 0 {
      EmptyWindow(log, next, next + SECOND, start, bucketStart + SECOND);
    }
    if steps > 1 {
      EmptyWindow(log, next - SECOND, next, start, bucketStart + SECOND);
    }
  }

  lemma RecordKeeps(log: seq<Entry>, start: nat, bucketStart: nat, clock: nat, current: Bucket, previous: Bucket,
                    entry: Entry)
    requires Buckets(log, start, bucketStart, clock, current, previous) && entry.time == clock
    ensures Buckets(log + [entry], start, bucketStart, clock, Count(current, entry), previous)
  {
    WindowAppend(log, entry, bucketStart, bucketStart + SECOND);
    WindowAppend(log, entry, bucketStart - SECOND, bucketStart);
  }

  // The reading of the statistics covers the log from here on.
  function From(start: nat, bucketStart: nat): int {
    if bucketStart == start then start else bucketStart - SECOND
  }

  // Both buckets together are the log since `From`, less than one second ago at first and
  // between one and two seconds ago later.
  lemma SlidingWindow(log: seq<Entry>, start: nat, bucketStart: nat, clock: nat, current: Bucket, previous: Bucket)
    requires Buckets(log, start, bucketStart, clock, current, previous)
    ensures Add(previous, current) == Window(log, From(start, bucketStart), clock + 1)
    ensures bucketStart == start ==> 0 <= clock - From(start, bucketStart) < SECOND
    ensures bucketStart != start ==> SECOND <= clock - From(start, bucketStart) < 2 * SECOND
  {
    var from := From(start, bucketStart);
    WindowsAdd(log, bucketStart - SECOND, bucketStart, bucketStart + SECOND);
    assert Window(log, bucketStart - SECOND, bucketStart + SECOND) == Window(log, from, clock + 1) by {
      UpToNow(log, bucketStart - SECOND, from, bucketStart + SECOND, clock + 1, start);
    }
  }

  lemma {:induction false} UpToNow(log: seq<Entry>, lo: int, from: int, hi: int, to: int, start: nat)
    requires Within(log, start, to) && lo <= from && to <= hi && (lo == from || from == start)
    ensures Window(log, lo, hi) == Window(log, from, to)
  {
    if log != [] {
      UpToNow(log[..|log| - 1], lo, from, hi, to, start);
    }
  }

  /* ---------- Frame loss ---------- */

  // The highest frame number so far, a 32-bit word.
  datatype Base = Base(has: bool, last: nat)

  // The 32-bit difference
  function Delta(last: nat, frame: nat): (d: nat)
    requires last < WORD && frame < WORD
    ensures d < WORD
  {
    if frame >= last then frame - last else frame + WORD - last
  }

  predicate Advances(b: Base, frame: nat)
    requires b.last < WORD && frame < WORD
  {
    b.has && 0 < Delta(b.last, frame) < HALF
  }

  function Lost(b: Base, frame: nat): nat
    requires b.last < WORD && frame < WORD
  {
    if Advances(b, frame) then Delta(b.last, frame) - 1 else 0
  }

  function NextBase(b: Base, frame: nat): Base
    requires b.last < WORD && frame < WORD
  {
    if !b.has || Advances(b, frame) then Base(true, frame) else b
  }

  predicate Words(frames: seq<nat>) {
    forall i :: 0 <= i < |frames| ==> frames[i] < WORD
  }

  datatype Loss = Loss(base: Base, missing: nat, advances: nat)

  // The base and the counts after these frames.
  function LossOf(frames: seq<nat>): (l: Loss)
    requires Words(frames)
    ensures l.base.last < WORD && (l.base.has <==> frames != [])
  {
    if frames == [] then Loss(Base(false, 0), 0, 0)
    else
      var l, f := LossOf(frames[..|frames| - 1]), frames[|frames| - 1];
      Loss(NextBase(l.base, f), l.missing + Lost(l.base, f), l.advances + if Advances(l.base, f) then 1 else 0)
  }

  function Highest(t: seq<nat>): (h: nat)
    requires t != []
    ensures h in t && forall i :: 0 <= i < |t| ==> t[i] <= h
  {
    if |t| == 1 then t[0] else Max(Highest(t[..|t| - 1]), t[|t| - 1])
  }

  // Frame numbers that are never half the number range away from the highest before.
  ghost predicate Near(t: seq<nat>) {
    |t| > 1 ==>
      var n := |t| - 1;
      Near(t[..n]) && -HALF <= t[n] - Highest(t[..n]) < HALF
  }

  function Wrapped(t: seq<nat>): (frames: seq<nat>)
    ensures Words(frames) && |frames| == |t|
  {
    seq(|t|, i requires 0 <= i < |t| => t[i] % WORD)
  }

  lemma NearAppend(t: seq<nat>, x: nat)
    requires t != [] && Near(t) && -HALF <= x - Highest(t) < HALF
    ensures Near(t + [x])
  {
    assert (t + [x])[..|t|] == t;
  }

  lemma WrappedAppend(t: seq<nat>, x: nat)
    ensures Wrapped(t + [x]) == Wrapped(t) + [x % WORD]
  {
  }

  lemma DeltaOfWrapped(a: nat, b: nat)
    requires -HALF <= b - a < HALF
    ensures Delta(a % WORD, b % WORD) == if b >= a then b - a else b - a + WORD
  {
    var q, r, p, s := a / WORD, a % WORD, b / WORD, b % WORD;
    assert a == q * WORD + r && b == p * WORD + s;
    assert p == q || p == q + 1 || p == q - 1;
  }

  lemma CountWrapped(highest: nat, frame: nat)
    requires -HALF <= frame - highest < HALF
    ensures var b, f, h := Base(true, highest % WORD), frame % WORD, Max(highest, frame);
      && NextBase(b, f) == Base(true, h % WORD)
      && Lost(b, f) + (if Advances(b, f) then 1 else 0) == h - highest
  {
    DeltaOfWrapped(highest, frame);
  }

  // Nothing is lost when the numbers wrap around: the base is the highest true number,
  // and the missing and the advancing frames make up its distance from the first.
  lemma {:induction false} LossIsDistance(t: seq<nat>)
    requires t != [] && Near(t)
    ensures var l := LossOf(Wrapped(t));
      l.base == Base(true, Highest(t) % WORD) && l.missing + l.advances == Highest(t) - t[0]
  {
    var n := |t| - 1;
    assert Wrapped(t)[..n] == Wrapped(t[..n]);
    if n > 0 {
      LossIsDistance(t[..n]);
      CountWrapped(Highest(t[..n]), t[n]);
    }
  }

  predicate Unwraps(highest: nat, frame: nat, x: nat) {
    x % WORD == frame && -HALF <= x - highest < HALF
  }

  lemma CanUnwrap(highest: nat, frame: nat)
    requires highest >= WORD && frame < WORD
    ensures exists x: nat :: Unwraps(highest, frame, x)
  {
    var q, r := highest / WORD, highest % WORD;
    assert highest == q * WORD + r && q >= 1;
    var k := if frame - r >= HALF then q - 1 else if frame - r < -HALF then q + 1 else q;
    Remainder(k, frame);
    assert Unwraps(highest, frame, k * WORD + frame);
  }

  // The number nearest to `highest` that wraps to `frame`, the lower one of two.
  ghost function Unwrap(highest: nat, frame: nat): (x: nat)
    requires highest >= WORD && frame < WORD
    ensures Unwraps(highest, frame, x)
  {
    CanUnwrap(highest, frame);
    var x: nat :| Unwraps(highest, frame, x);
    x
  }

  lemma Remainder(q: nat, frame: nat)
    requires frame < WORD
    ensures (q * WORD + frame) % WORD == frame
  {
  }

  // True numbers for received ones. They start past the word size, so that late frames
  // from before the first have numbers too.
  ghost function Unwrapped(frames: seq<nat>): (t: seq<nat>)
    requires Words(frames)
    ensures |t| == |frames| && (t != [] ==> t[0] == WORD + frames[0])
  {
    if frames == [] then []
    else if |frames| == 1 then [WORD + frames[0]]
    else
      var t := Unwrapped(frames[..|frames| - 1]);
      assert Highest(t) >= t[0];
      t + [Unwrap(Highest(t), frames[|frames| - 1])]
  }

  lemma UnwrapStep(t: seq<nat>, x: nat, u: seq<nat>, before: seq<nat>, frames: seq<nat>)
    requires t != [] && Near(t) && Wrapped(t) == before && -HALF <= x - Highest(t) < HALF
    requires u == t + [x] && frames == before + [x % WORD]
    ensures Near(u) && Wrapped(u) == frames
  {
    NearAppend(t, x);
    WrappedAppend(t, x);
  }

  lemma FirstUnwrapped(frames: seq<nat>)
    requires Words(frames) && |frames| == 1
    ensures Near(Unwrapped(frames)) && Wrapped(Unwrapped(frames)) == frames
  {
    Remainder(1, frames[0]);
    assert Unwrapped(frames) == [WORD + frames[0]];
  }

  // Every sequence of 32-bit numbers has true numbers as LossIsDistance needs them.
  lemma {:induction false} UnwrappedIsNear(frames: seq<nat>)
    requires Words(frames)
    ensures Near(Unwrapped(frames)) && Wrapped(Unwrapped(frames)) == frames
  {
    if |frames| == 1 {
      FirstUnwrapped(frames);
    } else if frames != [] {
      var n := |frames| - 1;
      var t, u := Unwrapped(frames[..n]), Unwrapped(frames);
      UnwrappedIsNear(frames[..n]);
      assert Highest(t) >= t[0];
      UnwrapStep(t, Unwrap(Highest(t), frames[n]), u, frames[..n], frames);
    }
  }

  // They are the only ones with that start.
  lemma {:induction false} NearIsUnique(t: seq<nat>, u: seq<nat>)
    requires |t| == |u| > 0 && Near(t) && Near(u) && Wrapped(t) == Wrapped(u) && t[0] == u[0]
    ensures t == u
  {
    var n := |t| - 1;
    if n > 0 {
      WrappedAppend(t[..n], t[n]);
      WrappedAppend(u[..n], u[n]);
      assert t == t[..n] + [t[n]] && u == u[..n] + [u[n]];
      assert Wrapped(t)[..n] == Wrapped(t[..n]) && Wrapped(u)[..n] == Wrapped(u[..n]);
      NearIsUnique(t[..n], u[..n]);
      assert Wrapped(t)[n] == Wrapped(u)[n];
      SameWord(t[n], u[n]);
    }
  }

  lemma SameWord(a: nat, b: nat)
    requires a % WORD == b % WORD && -WORD < a - b < WORD
    ensures a == b
  {
    assert a == a / WORD * WORD + a % WORD && b == b / WORD * WORD + b % WORD;
  }

  // Whatever 32-bit numbers arrive, missing and advancing frames are the distance from the
  // first to the highest true number.
  lemma AnyLossIsDistance(frames: seq<nat>)
    requires Words(frames) && frames != []
    ensures var l, t := LossOf(frames), Unwrapped(frames);
      l.base == Base(true, Highest(t) % WORD) && l.missing + l.advances == Highest(t) - (WORD + frames[0])
  {
    UnwrappedIsNear(frames);
    LossIsDistance(Unwrapped(frames));
  }

  // Whatever 32-bit numbers arrive, the counted frames lead from the first to the base.
  lemma {:induction false} LossLeadsToBase(frames: seq<nat>)
    requires Words(frames) && frames != []
    ensures var l := LossOf(frames); l.base.last == (frames[0] + l.missing + l.advances) % WORD
  {
    var n := |frames| - 1;
    if n > 0 {
      LossLeadsToBase(frames[..n]);
      var l := LossOf(frames[..n]);
      Forward(l.base.last, frames[n], frames[0] + l.missing + l.advances);
    } else {
      assert LossOf(frames[..0]) == Loss(Base(false, 0), 0, 0);
    }
  }

  lemma Forward(last: nat, frame: nat, n: nat)
    requires last < WORD && frame < WORD && n % WORD == last
    ensures (n + Delta(last, frame)) % WORD == frame
  {
    assert n == n / WORD * WORD + last;
    if frame < last {
      assert n + Delta(last, frame) == (n / WORD + 1) * WORD + frame;
    } else {
      assert n + Delta(last, frame) == n / WORD * WORD + frame;
    }
  }
}
