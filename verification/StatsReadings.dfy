// What the numbers of a reading of src/moonlight/stream_stats.c mean: which events each rate
// counts, and of which samples each latency tells the average and the extremes.
module StatsReadings {
  import opened Options
  import opened StreamStats
  import opened StatsRecorder

  /* ---------- Rates ---------- */

  datatype Measure = Incoming | Payload | Missing | Outputs | PacerDrops | Submits | Offers | Replacements

  // How much an event adds to a measure.
  function Amount(e: Event, m: Measure): nat {
    match e
    case Received(bytes, lost, _, _, _) =>
      (match m case Incoming => 1 case Payload => bytes case Missing => lost case _ => 0)
    case Decoded(_, outputs, failed, pacerDrop) =>
      if failed then 0 else if m.Outputs? || (m.PacerDrops? && pacerDrop) then outputs else 0
    case Queued(replaced) => if m.Offers? || (m.Replacements? && replaced) then 1 else 0
    case Presented(_, _) => if m.Submits? then 1 else 0
    case _ => 0
  }

  // What the events with from <= time < to add.
  function Sum(log: seq<Entry>, from: int, to: int, m: Measure): nat {
    if log == [] then 0
    else
      var rest, last := Sum(log[..|log| - 1], from, to, m), log[|log| - 1];
      if from <= last.time < to then rest + Amount(last.event, m) else rest
  }

  function Field(b: Bucket, m: Measure): nat {
    match m
    case Incoming => b.frames.received
    case Payload => b.traffic.bytes
    case Missing => b.traffic.missing
    case Outputs => b.frames.decoded
    case PacerDrops => b.traffic.pacerDrops
    case Submits => b.frames.presented
    case Offers => b.frames.queued
    case Replacements => b.traffic.replacements
  }

  lemma CountsAmount(b: Bucket, x: Entry, m: Measure)
    ensures Field(Count(b, x), m) == Field(b, m) + Amount(x.event, m)
  {
  }

  lemma {:induction false} WindowSums(log: seq<Entry>, from: int, to: int, m: Measure)
    ensures Field(Window(log, from, to), m) == Sum(log, from, to, m)
  {
    if log != [] {
      WindowSums(log[..|log| - 1], from, to, m);
      CountsAmount(Window(log[..|log| - 1], from, to), log[|log| - 1], m);
    }
  }

  // `r` is `n` of `d`, times `scale`; 0 if there is nothing to compare with.
  ghost predicate IsRatio(r: real, n: nat, d: nat, scale: real) {
    if d == 0 then r == 0.0 else r * d as real == n as real * scale
  }

  lemma RatioIs(n: nat, d: nat, scale: real)
    ensures IsRatio(Ratio(n, d, scale), n, d, scale)
  {
  }

  // Rates are per second, in megabits per second, and in percent: of the frames that should
  // have come, of the decoded ones, and of those offered for presentation.
  lemma RatesMean(log: seq<Entry>, from: int, to: int, duration: nat)
    ensures var s := StatsOf(Window(log, from, to), duration);
      && IsRatio(s.incomingFps, Sum(log, from, to, Incoming), duration, 1000000.0)
      && IsRatio(s.decodedFps, Sum(log, from, to, Outputs), duration, 1000000.0)
      && IsRatio(s.submitFps, Sum(log, from, to, Submits), duration, 1000000.0)
      && IsRatio(s.payloadMbps, Sum(log, from, to, Payload), duration, 8.0)
  {
    var b := Window(log, from, to);
    WindowSums(log, from, to, Incoming);
    WindowSums(log, from, to, Outputs);
    WindowSums(log, from, to, Submits);
    WindowSums(log, from, to, Payload);
    RatioIs(b.frames.received, duration, 1000000.0);
    RatioIs(b.frames.decoded, duration, 1000000.0);
    RatioIs(b.frames.presented, duration, 1000000.0);
    RatioIs(b.traffic.bytes, duration, 8.0);
  }

  lemma PercentagesMean(log: seq<Entry>, from: int, to: int, duration: nat)
    ensures var s := StatsOf(Window(log, from, to), duration);
      && IsRatio(s.missingPercent, Sum(log, from, to, Missing),
                 Sum(log, from, to, Incoming) + Sum(log, from, to, Missing), 100.0)
      && IsRatio(s.pacerDropPercent, Sum(log, from, to, PacerDrops), Sum(log, from, to, Outputs), 100.0)
      && IsRatio(s.replacedPercent, Sum(log, from, to, Replacements), Sum(log, from, to, Offers), 100.0)
  {
    var b := Window(log, from, to);
    WindowSums(log, from, to, Incoming);
    WindowSums(log, from, to, Missing);
    WindowSums(log, from, to, Outputs);
    WindowSums(log, from, to, PacerDrops);
    WindowSums(log, from, to, Offers);
    WindowSums(log, from, to, Replacements);
    RatioIs(b.traffic.missing, b.frames.received + b.traffic.missing, 100.0);
    RatioIs(b.traffic.pacerDrops, b.frames.decoded, 100.0);
    RatioIs(b.traffic.replacements, b.frames.queued, 100.0);
  }

  /* ---------- Times and latencies ---------- */

  datatype Span = Reassembly | Decoding | Prequeue | Vblank | PafQueue | PafCpu | AudioDecoding | AudioOutput | HostSide

  // The sample that an event gives for a span, if it does.
  function Sample(x: Entry, span: Span): Option<nat> {
    match x.event
    case Received(_, _, latency, receiveUs, enqueueUs) =>
      if span.Reassembly? && x.enabled && enqueueUs >= receiveUs then Some(enqueueUs - receiveUs)
      else if span.HostSide? && x.enabled && latency != 0 then Some(latency)
      else None
    case Decoded(callUs, _, _, _) => if span.Decoding? then Some(callUs) else None
    case Prepared(prepareUs, vblankUs) =>
      if span.Prequeue? then Some(prepareUs) else if span.Vblank? && x.vblankWait then Some(vblankUs) else None
    case Queued(_) => None
    case Presented(queueUs, cpuUs) =>
      if span.PafQueue? then Some(queueUs) else if span.PafCpu? then Some(cpuUs) else None
    case AudioDecoded(decodeUs) => if span.AudioDecoding? then Some(decodeUs) else None
    case AudioPlayed(outputUs) => if span.AudioOutput? then Some(outputUs) else None
  }

  function Samples(log: seq<Entry>, from: int, to: int, span: Span): seq<nat> {
    if log == [] then []
    else
      var rest, last := Samples(log[..|log| - 1], from, to, span), log[|log| - 1];
      if from <= last.time < to && Sample(last, span).Some? then rest + [Sample(last, span).value] else rest
  }

  function Total(s: seq<nat>): nat {
    if s == [] then 0 else Total(s[..|s| - 1]) + s[|s| - 1]
  }

  function TimingIn(b: Bucket, span: Span): Timing {
    match span
    case Reassembly => b.timing.video.reassembly
    case Decoding => b.timing.video.decode
    case Prequeue => b.timing.video.prequeue
    case Vblank => b.timing.video.vblank
    case PafQueue => b.timing.output.pafQueue
    case PafCpu => b.timing.output.pafCpu
    case AudioDecoding => b.timing.output.audioDecode
    case AudioOutput => b.timing.output.audioOutput
    case HostSide => Timing(b.host.samples, b.host.total, b.host.most)
  }

  // `m` is the greatest of the samples, or 0.
  predicate IsGreatest(s: seq<nat>, m: nat) {
    (forall i :: 0 <= i < |s| ==> s[i] <= m) && if s == [] then m == 0 else m in s
  }

  predicate Summarizes(t: Timing, s: seq<nat>) {
    t.samples == |s| && t.total == Total(s) && IsGreatest(s, t.maximum)
  }

  lemma SummarizesMore(t: Timing, s: seq<nat>, us: nat)
    requires Summarizes(t, s)
    ensures Summarizes(Note(t, us), s + [us])
  {
    assert (s + [us])[..|s|] == s && (s + [us])[|s|] == us;
    forall v | v in s
      ensures v in s + [us]
    {
    }
  }

  lemma CountsSample(b: Bucket, x: Entry, span: Span)
    ensures TimingIn(Count(b, x), span)
            == if Sample(x, span).Some? then Note(TimingIn(b, span), Sample(x, span).value) else TimingIn(b, span)
  {
  }

  lemma {:induction false} WindowSummarizes(log: seq<Entry>, from: int, to: int, span: Span)
    ensures Summarizes(TimingIn(Window(log, from, to), span), Samples(log, from, to, span))
  {
    if log != [] {
      var rest, last := log[..|log| - 1], log[|log| - 1];
      WindowSummarizes(rest, from, to, span);
      CountsSample(Window(rest, from, to), last, span);
      if from <= last.time < to && Sample(last, span).Some? {
        SummarizesMore(TimingIn(Window(rest, from, to), span), Samples(rest, from, to, span), Sample(last, span).value);
      }
    }
  }

  function TimesOf(s: Stats, span: Span): TimingStats
    requires !span.HostSide?
  {
    match span
    case Reassembly => s.reassembly
    case Decoding => s.decode
    case Prequeue => s.prequeue
    case Vblank => s.vblank
    case PafQueue => s.pafQueue
    case PafCpu => s.pafCpu
    case AudioDecoding => s.audioDecode
    case AudioOutput => s.audioOutput
  }

  // Times are averages and maxima of the samples, in milliseconds.
  lemma TimesMean(log: seq<Entry>, from: int, to: int, duration: nat, span: Span)
    requires !span.HostSide?
    ensures var t, s := TimesOf(StatsOf(Window(log, from, to), duration), span), Samples(log, from, to, span);
      && t.samples == |s| && IsRatio(t.averageMs, Total(s), |s|, 0.001)
      && exists m :: IsGreatest(s, m) && t.maximumMs * 1000.0 == m as real
  {
    WindowSummarizes(log, from, to, span);
    var t := TimingIn(Window(log, from, to), span);
    RatioIs(t.total, t.samples, 0.001);
    assert TimesOf(StatsOf(Window(log, from, to), duration), span) == TimingOf(t);
    assert IsGreatest(Samples(log, from, to, span), t.maximum);
  }

  // The least of the samples, 0 if there is none
  predicate IsLeast(s: seq<nat>, m: nat) {
    (forall i :: 0 <= i < |s| ==> m <= s[i]) && if s == [] then m == 0 else m in s
  }

  lemma {:induction false} WindowLeast(log: seq<Entry>, from: int, to: int)
    ensures IsLeast(Samples(log, from, to, HostSide), Window(log, from, to).host.least)
    ensures Window(log, from, to).host.samples == |Samples(log, from, to, HostSide)|
  {
    if log != [] {
      var rest, last := log[..|log| - 1], log[|log| - 1];
      WindowLeast(rest, from, to);
      LeastMore(Window(rest, from, to), Samples(rest, from, to, HostSide), last);
    }
  }

  lemma LeastMore(b: Bucket, s: seq<nat>, x: Entry)
    requires IsLeast(s, b.host.least) && b.host.samples == |s|
    ensures var sample, h := Sample(x, HostSide), Count(b, x).host;
      if sample.Some? then IsLeast(s + [sample.value], h.least) && h.samples == |s| + 1 else h == b.host
  {
    if Sample(x, HostSide).Some? {
      var more := s + [Sample(x, HostSide).value];
      assert more[|s|] == Sample(x, HostSide).value && forall i :: 0 <= i < |s| ==> more[i] == s[i];
    }
  }

  // Latencies of the host are told in tenths of a millisecond.
  lemma LatenciesMean(log: seq<Entry>, from: int, to: int, duration: nat)
    ensures var h, s := StatsOf(Window(log, from, to), duration).host, Samples(log, from, to, HostSide);
      && h.samples == |s| && IsRatio(h.averageMs, Total(s), |s|, 0.1)
      && (exists m :: IsLeast(s, m) && h.minMs * 10.0 == m as real)
      && (exists m :: IsGreatest(s, m) && h.maxMs * 10.0 == m as real)
  {
    WindowSummarizes(log, from, to, HostSide);
    WindowLeast(log, from, to);
    var h := Window(log, from, to).host;
    RatioIs(h.total, h.samples, 0.1);
    assert IsLeast(Samples(log, from, to, HostSide), h.least);
    assert IsGreatest(Samples(log, from, to, HostSide), h.most);
  }
}
