// The static state of src/moonlight/stream_stats.c and its recorders, each one critical
// section, against the log of StreamStats.
module StatsRecorder {
  import opened StreamStats

  /* ---------- Readings ---------- */

  datatype TimingStats = TimingStats(samples: nat, averageMs: real, maximumMs: real)

  datatype Host = Host(samples: nat, minMs: real, maxMs: real, averageMs: real)

  datatype Stats = Stats(incomingFps: real, decodedFps: real, submitFps: real, payloadMbps: real,
                         missingPercent: real, pacerDropPercent: real, replacedPercent: real, host: Host,
                         reassembly: TimingStats, decode: TimingStats, prequeue: TimingStats, vblank: TimingStats,
                         pafQueue: TimingStats, pafCpu: TimingStats, audioDecode: TimingStats,
                         audioOutput: TimingStats)

  // ratio, over real numbers
  function Ratio(numerator: nat, denominator: nat, scale: real): real {
    if denominator == 0 then 0.0 else numerator as real * scale / denominator as real
  }

  function TimingOf(t: Timing): TimingStats {
    TimingStats(t.samples, Ratio(t.total, t.samples, 0.001), t.maximum as real / 1000.0)
  }

  function HostOf(h: HostLatency): Host {
    if h.samples == 0 then Host(0, 0.0, 0.0, 0.0)
    else Host(h.samples, h.least as real / 10.0, h.most as real / 10.0, Ratio(h.total, h.samples, 0.1))
  }

  // The rates of what was recorded in `duration` microseconds.
  function StatsOf(b: Bucket, duration: nat): Stats {
    var f, t, v, o := b.frames, b.traffic, b.timing.video, b.timing.output;
    Stats(Ratio(f.received, duration, 1000000.0), Ratio(f.decoded, duration, 1000000.0),
          Ratio(f.presented, duration, 1000000.0), Ratio(t.bytes, duration, 8.0),
          Ratio(t.missing, f.received + t.missing, 100.0), Ratio(t.pacerDrops, f.decoded, 100.0),
          Ratio(t.replacements, f.queued, 100.0), HostOf(b.host),
          TimingOf(v.reassembly), TimingOf(v.decode), TimingOf(v.prequeue), TimingOf(v.vblank),
          TimingOf(o.pafQueue), TimingOf(o.pafCpu), TimingOf(o.audioDecode), TimingOf(o.audioOutput))
  }

  /* ---------- The state ---------- */

  function NextGeneration(g: nat): nat {
    if g + 1 == WORD then 1 else g + 1
  }

  // The fields of the session that these functions count with.
  datatype Session = Session(generation: nat, enabled: bool, active: bool, vblankWait: bool, hasVideo: bool,
                             received: nat, missing: nat, pacerDrops: nat, replacements: nat)

  const NO_SESSION := Session(0, false, false, false, false, 0, 0, 0, 0)

  predicate Accepts(s: Session, generation: nat) {
    generation != 0 && generation == s.generation && s.active
  }

  function SessionTally(s: Session): Tally {
    Tally(s.received, s.missing, s.pacerDrops, s.replacements)
  }

  // The session's counters and the frame base, in terms of the log.
  ghost predicate Counted(log: seq<Entry>, frames: seq<nat>, s: Session, base: Base) {
    && s.generation < WORD
    && Words(frames) && |frames| == s.received
    && TallyOf(log) == SessionTally(s)
    && base == LossOf(frames).base && s.missing == LossOf(frames).missing
  }

  // A session's counters after an event.
  function SessionAfter(s: Session, x: Entry): Session {
    var t := CountTally(SessionTally(s), x);
    s.(received := t.received, missing := t.missing, pacerDrops := t.pacerDrops, replacements := t.replacements,
       hasVideo := s.hasVideo || x.event.Received?)
  }

  // The entry of the log for a received frame, with the frames lost before it.
  function FrameEntry(s: Session, frames: seq<nat>, frame: nat, bytes: nat, latency: nat, receiveUs: nat,
                      enqueueUs: nat, now: nat): Entry
    requires Words(frames) && frame < WORD
  {
    Entry(now, Received(bytes, Lost(LossOf(frames).base, frame), latency, receiveUs, enqueueUs), s.enabled,
          s.vblankWait)
  }

  lemma CountKeeps(log: seq<Entry>, frames: seq<nat>, s: Session, base: Base, x: Entry)
    requires Counted(log, frames, s, base) && !x.event.Received?
    ensures Counted(log + [x], frames, SessionAfter(s, x), base)
  {
    TallyAppend(log, x);
  }

  lemma CountFrameKeeps(log: seq<Entry>, frames: seq<nat>, s: Session, base: Base, x: Entry, frame: nat)
    requires Counted(log, frames, s, base) && frame < WORD && base.last < WORD
    requires x.event.Received? && x.event.lost == Lost(base, frame)
    ensures Counted(log + [x], frames + [frame], SessionAfter(s, x), NextBase(base, frame))
  {
    TallyAppend(log, x);
    assert (frames + [frame])[..|frames|] == frames;
  }

  // Buckets start whole seconds after the session.
  predicate WholeSeconds(start: nat, bucketStart: nat) {
    start <= bucketStart && (bucketStart - start) % SECOND == 0
  }

  lemma MoreSeconds(start: nat, bucketStart: nat, steps: nat)
    requires WholeSeconds(start, bucketStart)
    ensures WholeSeconds(start, bucketStart + steps * SECOND)
  {
    var k := (bucketStart - start) / SECOND;
    assert bucketStart + steps * SECOND - start == (k + steps) * SECOND;
  }

  // How far back a reading goes: the full second before the current one, and what has
  // passed of that; in the first second all there is.
  function Span(start: nat, now: nat): (d: nat)
    requires start <= now
    ensures now - start < SECOND ==> d == now - start
    ensures now - start >= SECOND ==> SECOND <= d < 2 * SECOND
  {
    if now - start < SECOND then now - start else SECOND + (now - start) % SECOND
  }

  lemma SinceBucket(start: nat, bucketStart: nat, now: nat)
    requires WholeSeconds(start, bucketStart) && bucketStart <= now < bucketStart + SECOND
    ensures (now - start) % SECOND == now - bucketStart
    ensures now - start < SECOND <==> bucketStart == start
  {
    var k := (bucketStart - start) / SECOND;
    assert now - start == k * SECOND + (now - bucketStart);
  }

  lemma SpanIs(start: nat, bucketStart: nat, now: nat)
    requires WholeSeconds(start, bucketStart) && bucketStart <= now < bucketStart + SECOND
    ensures now - From(start, bucketStart) == Span(start, now)
  {
    SinceBucket(start, bucketStart, now);
  }

  // Both buckets together are the log of the span.
  lemma ReadingIs(log: seq<Entry>, start: nat, bucketStart: nat, now: nat, current: Bucket, previous: Bucket,
                  from: int)
    requires Buckets(log, start, bucketStart, now, current, previous) && from == From(start, bucketStart)
    ensures Add(previous, current) == Window(log, from, now + 1)
  {
    SlidingWindow(log, start, bucketStart, now, current, previous);
  }

  // s_current and s_previous
  class BucketPair {
    var current: Bucket
    var previous: Bucket
    var startUs: nat
    var bucketStartUs: nat

    // The events of this generation, and the last reading of the clock.
    ghost var log: seq<Entry>
    ghost var clock: nat

    ghost predicate Valid()
      reads this
    {
      Buckets(log, startUs, bucketStartUs, clock, current, previous) && WholeSeconds(startUs, bucketStartUs)
    }

    constructor ()
      ensures Valid() && log == [] && clock == startUs == 0
    {
      current, previous := NOTHING, NOTHING;
      startUs, bucketStartUs := 0, 0;
      log, clock := [], 0;
      new;
      NewBuckets(0);
    }

    method Restart(now: nat)
      modifies this
      ensures Valid() && log == [] && clock == startUs == now
    {
      NewBuckets(now);
      current, previous := NOTHING, NOTHING;
      startUs, bucketStartUs := now, now;
      log, clock := [], now;
    }

    // advance_window
    method Advance(now: nat)
      requires Valid() && clock <= now
      modifies `current, `previous, `bucketStartUs, `clock
      ensures Valid() && clock == now
    {
      var steps := (now - bucketStartUs) / SECOND;
      AdvanceKeeps(log, startUs, bucketStartUs, clock, current, previous, now, steps);
      MoreSeconds(startUs, bucketStartUs, steps);
      clock := now;
      if steps == 0 {
        return;
      }
      if steps == 1 {
        previous := current;
      } else {
        previous := NOTHING;
      }
      current := NOTHING;
      bucketStartUs := bucketStartUs + steps * SECOND;
    }

    // The entry of the log for what a recorder has counted.
    ghost method Log(entry: Entry, before: Bucket)
      requires Buckets(log, startUs, bucketStartUs, clock, before, previous) && entry.time == clock
      requires WholeSeconds(startUs, bucketStartUs)
      requires current == Count(before, entry)
      modifies `log
      ensures Valid() && log == old(log) + [entry]
    {
      RecordKeeps(log, startUs, bucketStartUs, clock, before, previous, entry);
      log := log + [entry];
    }

    // note_timing on one of the timings
    static method NoteTiming(t: Timing, us: nat) returns (noted: Timing)
      ensures noted == Note(t, us)
    {
      noted := t.(samples := t.samples + 1, total := t.total + us);
      if us > noted.maximum {
        noted := noted.(maximum := us);
      }
    }

    // The changes to s_current in moonlight_stats_received
    method PutReceived(e: Event, enabled: bool)
      requires e.Received?
      modifies `current
      ensures current == CountReceived(old(current), e, enabled)
    {
      var f, t, h, v := current.frames, current.traffic, current.host, current.timing.video;
      f := f.(received := f.received + 1);
      t := t.(bytes := t.bytes + e.bytes);
      t := t.(missing := t.missing + e.lost);
      if enabled {
        if e.latency != 0 {
          if h.samples == 0 || e.latency < h.least {
            h := h.(least := e.latency);
          }
          if e.latency > h.most {
            h := h.(most := e.latency);
          }
          h := h.(samples := h.samples + 1, total := h.total + e.latency);
        }
        if e.enqueueUs >= e.receiveUs {
          var noted := NoteTiming(v.reassembly, e.enqueueUs - e.receiveUs);
          v := v.(reassembly := noted);
        }
      }
      current := Bucket(f, t, h, current.timing.(video := v));
    }

    // The changes to s_current in moonlight_stats_decode
    method PutDecode(e: Event)
      requires e.Decoded?
      modifies `current
      ensures current == CountDecode(old(current), e)
    {
      var f, t, v := current.frames, current.traffic, current.timing.video;
      var noted := NoteTiming(v.decode, e.callUs);
      v := v.(decode := noted);
      if !e.failed {
        f := f.(decoded := f.decoded + e.outputs);
        if e.pacerDrop {
          t := t.(pacerDrops := t.pacerDrops + e.outputs);
        }
      }
      current := Bucket(f, t, current.host, current.timing.(video := v));
    }

    // The changes to s_current in moonlight_stats_prepared
    method PutPrepared(e: Event, vblankWait: bool)
      requires e.Prepared?
      modifies `current
      ensures current == CountPrepared(old(current), e, vblankWait)
    {
      var v := current.timing.video;
      var noted := NoteTiming(v.prequeue, e.prepareUs);
      v := v.(prequeue := noted);
      if vblankWait {
        noted := NoteTiming(v.vblank, e.vblankUs);
        v := v.(vblank := noted);
      }
      current := current.(timing := current.timing.(video := v));
    }

    // The changes to s_current in moonlight_stats_queued
    method PutQueued(e: Event)
      requires e.Queued?
      modifies `current
      ensures current == CountQueued(old(current), e)
    {
      var f, t := current.frames, current.traffic;
      f := f.(queued := f.queued + 1);
      if e.replaced {
        t := t.(replacements := t.replacements + 1);
      }
      current := current.(frames := f, traffic := t);
    }

    // The changes to s_current in moonlight_stats_presented
    method PutPresented(e: Event)
      requires e.Presented?
      modifies `current
      ensures current == CountPresented(old(current), e)
    {
      var f, o := current.frames, current.timing.output;
      f := f.(presented := f.presented + 1);
      var noted := NoteTiming(o.pafQueue, e.queueUs);
      o := o.(pafQueue := noted);
      noted := NoteTiming(o.pafCpu, e.cpuUs);
      o := o.(pafCpu := noted);
      current := current.(frames := f, timing := current.timing.(output := o));
    }

    // The changes to s_current in moonlight_stats_audio_decode and
    // moonlight_stats_audio_output
    method PutAudio(e: Event)
      requires e.AudioDecoded? || e.AudioPlayed?
      modifies `current
      ensures current == CountAudio(old(current), e)
    {
      var o := current.timing.output;
      if e.AudioDecoded? {
        var noted := NoteTiming(o.audioDecode, e.decodeUs);
        o := o.(audioDecode := noted);
      } else {
        var noted := NoteTiming(o.audioOutput, e.outputUs);
        o := o.(audioOutput := noted);
      }
      current := current.(timing := current.timing.(output := o));
    }

    // The changes to s_current in the recorder of the event
    method Put(e: Event, enabled: bool, vblankWait: bool, ghost entry: Entry)
      requires entry == Entry(entry.time, e, enabled, vblankWait)
      modifies `current
      ensures current == Count(old(current), entry)
    {
      if e.Received? {
        PutReceived(e, enabled);
      } else if e.Decoded? {
        PutDecode(e);
      } else if e.Prepared? {
        PutPrepared(e, vblankWait);
      } else if e.Queued? {
        PutQueued(e);
      } else if e.Presented? {
        PutPresented(e);
      } else {
        PutAudio(e);
      }
    }

    // An accepted event is counted and logged.
    method Record(e: Event, enabled: bool, vblankWait: bool)
      requires Valid()
      modifies `current, `log
      ensures Valid() && log == old(log) + [Entry(clock, e, enabled, vblankWait)]
    {
      ghost var before, entry := current, Entry(clock, e, enabled, vblankWait);
      Put(e, enabled, vblankWait, entry);
      Log(entry, before);
    }

    // timing_snapshot
    static method TimingSnapshot(a: Timing, b: Timing) returns (t: TimingStats)
      ensures t == TimingOf(AddTiming(b, a))
    {
      var samples := a.samples + b.samples;
      t := TimingStats(samples, Ratio(a.total + b.total, samples, 0.001),
                       (if a.maximum > b.maximum then a.maximum else b.maximum) as real / 1000.0);
    }

    // The host latencies of a reading
    static method HostSnapshot(a: HostLatency, b: HostLatency) returns (host: Host)
      ensures host == HostOf(AddHost(b, a))
    {
      var samples := a.samples + b.samples;
      if samples == 0 {
        return Host(0, 0.0, 0.0, 0.0);
      }
      var least := if a.samples != 0 then a.least else b.least;
      if b.samples != 0 && b.least < least {
        least := b.least;
      }
      var most := if a.most > b.most then a.most else b.most;
      host := Host(samples, least as real / 10.0, most as real / 10.0, Ratio(a.total + b.total, samples, 0.1));
    }

    // The rates of a reading, from the current and the previous bucket
    static method Rates(a: Bucket, b: Bucket, duration: nat) returns (stats: Stats)
      ensures stats == StatsOf(Add(b, a), duration)
    {
      var received, decoded := a.frames.received + b.frames.received, a.frames.decoded + b.frames.decoded;
      var missing := a.traffic.missing + b.traffic.missing;
      var host := HostSnapshot(a.host, b.host);
      var v, w, x, y := a.timing.video, b.timing.video, a.timing.output, b.timing.output;
      var reassembly := TimingSnapshot(v.reassembly, w.reassembly);
      var decode := TimingSnapshot(v.decode, w.decode);
      var prequeue := TimingSnapshot(v.prequeue, w.prequeue);
      var vblank := TimingSnapshot(v.vblank, w.vblank);
      var pafQueue := TimingSnapshot(x.pafQueue, y.pafQueue);
      var pafCpu := TimingSnapshot(x.pafCpu, y.pafCpu);
      var audioDecode := TimingSnapshot(x.audioDecode, y.audioDecode);
      var audioOutput := TimingSnapshot(x.audioOutput, y.audioOutput);
      stats := Stats(Ratio(received, duration, 1000000.0), Ratio(decoded, duration, 1000000.0),
                     Ratio(a.frames.presented + b.frames.presented, duration, 1000000.0),
                     Ratio(a.traffic.bytes + b.traffic.bytes, duration, 8.0),
                     Ratio(missing, received + missing, 100.0),
                     Ratio(a.traffic.pacerDrops + b.traffic.pacerDrops, decoded, 100.0),
                     Ratio(a.traffic.replacements + b.traffic.replacements, a.frames.queued + b.frames.queued, 100.0),
                     host, reassembly, decode, prequeue, vblank, pafQueue, pafCpu, audioDecode, audioOutput);
    }

    // The window of moonlight_stats_snapshot: every rate is that of the log since `From`.
    method Snapshot(now: nat) returns (stats: Stats, duration: nat)
      requires Valid() && clock <= now
      modifies `current, `previous, `bucketStartUs, `clock
      ensures Valid() && clock == now
      ensures startUs <= now && duration == Span(startUs, now)
      ensures stats == StatsOf(Window(log, now - duration, now + 1), duration)
    {
      Advance(now);
      stats, duration := Read(now);
    }

    // The rest of it, once the buckets have advanced
    method Read(now: nat) returns (stats: Stats, duration: nat)
      requires Valid() && clock == now
      ensures startUs <= now && duration == Span(startUs, now)
      ensures stats == StatsOf(Window(log, now - duration, now + 1), duration)
    {
      duration := Duration(now);
      stats := Rates(current, previous, duration);
    }

    // What both buckets cover
    method Duration(now: nat) returns (duration: nat)
      requires Valid() && clock == now
      ensures startUs <= now && duration == Span(startUs, now)
      ensures Add(previous, current) == Window(log, now - duration, now + 1)
    {
      duration := now - if bucketStartUs == startUs then startUs else bucketStartUs - SECOND;
      SpanIs(startUs, bucketStartUs, now);
      ReadingIs(log, startUs, bucketStartUs, now, current, previous, now - duration);
    }
  }

  // s_session with the frame base
  class Recorder {
    const buckets: BucketPair
    var session: Session
    var lastFrame: nat
    var hasLastFrame: bool
    var lastVideoUs: nat

    // The frame numbers of this generation.
    ghost var frames: seq<nat>

    function LastFrame(): Base
      reads this
    {
      Base(hasLastFrame, lastFrame)
    }

    ghost predicate Valid()
      reads this, buckets
    {
      buckets.Valid() && Counted(buckets.log, frames, session, LastFrame())
    }

    // Static storage before the first session
    constructor ()
      ensures Valid() && fresh(buckets) && session == NO_SESSION && frames == [] && lastVideoUs == 0
      ensures buckets.log == [] && buckets.clock == buckets.startUs == 0
    {
      buckets := new BucketPair();
      session, lastVideoUs, lastFrame, hasLastFrame := NO_SESSION, 0, 0, false;
      frames := [];
    }

    // moonlight_stats_begin
    method Begin(now: nat, showFps: bool, vblank: bool) returns (started: nat)
      requires Valid()
      modifies this, buckets
      ensures Valid() && buckets.log == [] && frames == [] && buckets.clock == buckets.startUs == now
      ensures started == session.generation == NextGeneration(old(session.generation)) && Accepts(session, started)
      ensures session == NO_SESSION.(generation := started, enabled := showFps, active := true,
                                     vblankWait := vblank)
      ensures lastVideoUs == 0
    {
      started := if session.generation + 1 == WORD then 0 else session.generation + 1;
      if started == 0 {
        started := 1;
      }
      session := NO_SESSION.(generation := started, enabled := showFps, active := true, vblankWait := vblank);
      buckets.Restart(now);
      lastVideoUs, lastFrame, hasLastFrame, frames := 0, 0, false, [];
    }

    // moonlight_stats_end
    method End(generation: nat)
      requires Valid()
      modifies `session
      ensures Valid() && session == old(session).(active := session.active)
      ensures session.active == (old(session.active) && !Accepts(old(session), generation))
    {
      if generation != 0 && generation == session.generation {
        session := session.(active := false);
      }
    }

    // begin_update
    method BeginUpdate(generation: nat, now: nat) returns (ok: bool)
      requires Valid() && buckets.clock <= now
      modifies buckets`current, buckets`previous, buckets`bucketStartUs, buckets`clock
      ensures Valid() && ok == Accepts(session, generation)
      ensures buckets.clock == if ok then now else old(buckets.clock)
      ensures !ok ==>
        && buckets.current == old(buckets.current) && buckets.previous == old(buckets.previous)
        && buckets.bucketStartUs == old(buckets.bucketStartUs)
    {
      if generation == 0 || generation != session.generation || !session.active {
        return false;
      }
      buckets.Advance(now);
      ok := true;
    }

    // The frame base and the missing frames, in moonlight_stats_received
    method CountFrame(frame: nat) returns (lost: nat)
      requires frame < WORD && lastFrame < WORD
      modifies `session, `lastFrame, `hasLastFrame
      ensures lost == Lost(old(LastFrame()), frame) && LastFrame() == NextBase(old(LastFrame()), frame)
      ensures session == old(session).(missing := old(session).missing + lost)
    {
      lost := 0;
      if hasLastFrame {
        var delta := Delta(lastFrame, frame);
        if delta != 0 && delta < HALF {
          lost := delta - 1;
          session := session.(missing := session.missing + lost);
          lastFrame := frame;
        }
      } else {
        lastFrame := frame;
        hasLastFrame := true;
      }
    }

    // moonlight_stats_received; `video` is its second reading of the clock.
    method RecordReceived(generation: nat, frame: nat, bytes: nat, latency: nat, receiveUs: nat, enqueueUs: nat,
                          now: nat, video: nat)
      requires Valid() && buckets.clock <= now <= video && frame < WORD
      modifies `session, `lastFrame, `hasLastFrame, `lastVideoUs, `frames
      modifies buckets`current, buckets`previous, buckets`bucketStartUs, buckets`clock, buckets`log
      ensures Valid() && LastFrame() == LossOf(frames).base
      ensures if Accepts(old(session), generation) then
          var entry := FrameEntry(old(session), old(frames), frame, bytes, latency, receiveUs, enqueueUs, now);
          && buckets.log == old(buckets.log) + [entry] && buckets.clock == now
          && session == SessionAfter(old(session), entry) && session.hasVideo
          && frames == old(frames) + [frame] && lastVideoUs == video
        else
          && buckets.log == old(buckets.log) && buckets.clock == old(buckets.clock)
          && session == old(session) && frames == old(frames) && lastVideoUs == old(lastVideoUs)
          && buckets.current == old(buckets.current) && buckets.previous == old(buckets.previous)
          && buckets.bucketStartUs == old(buckets.bucketStartUs)
    {
      var accepted := BeginUpdate(generation, now);
      if accepted {
        NoteReceived(frame, bytes, latency, receiveUs, enqueueUs, video);
      }
    }

    // The rest of moonlight_stats_received, once begin_update accepted
    method NoteReceived(frame: nat, bytes: nat, latency: nat, receiveUs: nat, enqueueUs: nat, video: nat)
      requires Valid() && frame < WORD
      modifies `session, `lastFrame, `hasLastFrame, `lastVideoUs, `frames
      modifies buckets`current, buckets`log
      ensures Valid() && frames == old(frames) + [frame] && lastVideoUs == video
      ensures var entry :=
          FrameEntry(old(session), old(frames), frame, bytes, latency, receiveUs, enqueueUs, buckets.clock);
        buckets.log == old(buckets.log) + [entry] && session == SessionAfter(old(session), entry)
    {
      ghost var entry := FrameEntry(session, frames, frame, bytes, latency, receiveUs, enqueueUs, buckets.clock);
      CountFrameKeeps(buckets.log, frames, session, LastFrame(), entry, frame);
      var lost := TakeFrame(frame, video, entry);
      buckets.Record(Received(bytes, lost, latency, receiveUs, enqueueUs), session.enabled, session.vblankWait);
      frames := frames + [frame];
    }

    // What it changes in the session
    method TakeFrame(frame: nat, video: nat, ghost entry: Entry) returns (lost: nat)
      requires frame < WORD && lastFrame < WORD
      requires entry.event.Received? && entry.event.lost == Lost(LastFrame(), frame)
      modifies `session, `lastFrame, `hasLastFrame, `lastVideoUs
      ensures lost == entry.event.lost && session == SessionAfter(old(session), entry)
      ensures LastFrame() == NextBase(old(LastFrame()), frame) && lastVideoUs == video
    {
      session := session.(received := session.received + 1, hasVideo := true);
      lastVideoUs := video;
      lost := CountFrame(frame);
    }

    // The counters of the session that the other recorders change
    method CountSession(e: Event)
      modifies `session
      ensures session.pacerDrops == old(session).pacerDrops +
                if e.Decoded? && !e.failed && e.pacerDrop then e.outputs else 0
      ensures session.replacements == old(session).replacements + if e.Queued? && e.replaced then 1 else 0
      ensures session == old(session).(pacerDrops := session.pacerDrops, replacements := session.replacements)
    {
      if e.Decoded? && !e.failed && e.pacerDrop {
        session := session.(pacerDrops := session.pacerDrops + e.outputs);
      }
      if e.Queued? && e.replaced {
        session := session.(replacements := session.replacements + 1);
      }
    }

    // They stay those of the log.
    method TakeEvent(e: Event, ghost log: seq<Entry>, ghost entry: Entry)
      requires Counted(log, frames, session, LastFrame()) && !e.Received? && entry.event == e
      modifies `session
      ensures Counted(log + [entry], frames, session, LastFrame()) && session == SessionAfter(old(session), entry)
    {
      CountKeeps(log, frames, session, LastFrame(), entry);
      CountSession(e);
    }

    // The other recorders: moonlight_stats_decode, moonlight_stats_prepared,
    // moonlight_stats_queued, moonlight_stats_presented, moonlight_stats_audio_decode and
    // moonlight_stats_audio_output, apart from error counts and the output size.
    method Record(generation: nat, e: Event, now: nat)
      requires Valid() && buckets.clock <= now && !e.Received?
      modifies `session
      modifies buckets`current, buckets`previous, buckets`bucketStartUs, buckets`clock, buckets`log
      ensures Valid()
      ensures if Accepts(old(session), generation) then
          var entry := Entry(now, e, old(session).enabled, old(session).vblankWait);
          && buckets.log == old(buckets.log) + [entry] && buckets.clock == now
          && session == SessionAfter(old(session), entry)
        else
          && buckets.log == old(buckets.log) && buckets.clock == old(buckets.clock) && session == old(session)
          && buckets.current == old(buckets.current) && buckets.previous == old(buckets.previous)
          && buckets.bucketStartUs == old(buckets.bucketStartUs)
    {
      var accepted := BeginUpdate(generation, now);
      if accepted {
        NoteEvent(e);
      }
    }

    // The rest of such a recorder, once begin_update accepted
    method NoteEvent(e: Event)
      requires Valid() && !e.Received?
      modifies `session, buckets`current, buckets`log
      ensures Valid()
      ensures var entry := Entry(buckets.clock, e, old(session).enabled, old(session).vblankWait);
        buckets.log == old(buckets.log) + [entry] && session == SessionAfter(old(session), entry)
    {
      ghost var entry := Entry(buckets.clock, e, session.enabled, session.vblankWait);
      TakeEvent(e, buckets.log, entry);
      buckets.Record(e, session.enabled, session.vblankWait);
    }

    // moonlight_stats_snapshot, without the fields it copies from the session
    method Snapshot(now: nat) returns (stats: Stats, duration: nat, videoAge: int)
      requires Valid() && buckets.clock <= now
      modifies buckets`current, buckets`previous, buckets`bucketStartUs, buckets`clock
      ensures Valid() && buckets.clock == now
      ensures buckets.startUs <= now && duration == Span(buckets.startUs, now)
      ensures stats == StatsOf(Window(buckets.log, now - duration, now + 1), duration)
      ensures videoAge == if session.hasVideo then now - lastVideoUs else 0
    {
      stats, duration := buckets.Snapshot(now);
      videoAge := if session.hasVideo then now - lastVideoUs else 0;
    }
  }
}
