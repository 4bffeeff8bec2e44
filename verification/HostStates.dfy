// What the fields of src/moonlight/api.cpp say, in every interleaving: the connection
// state, and whether a stream is starting or active.
module HostStates {
  import opened Options
  import opened StreamFlags
  import opened StreamSession
  import opened StreamTheorems
  import opened HostControl
  import opened HostTheorems

  /* ---------- What the requests found out ---------- */

  datatype Finding = NoHost | Stranger | Partner

  // Whether there is a host, and whether its PC is known to be paired. Only a finished
  // connect, PIN or pair request, a disconnect and shutdown say anything new.
  function Learned(known: Finding, holder: Holder, ok: bool, paired: bool): Finding {
    match holder
    case Connecting(InitServer) => if !ok then NoHost else if paired then Partner else Stranger
    case PreparingPin => if known != NoHost && paired then Partner else known
    case Pairing(RunPair) => if ok then Partner else known
    case Cleaning(ResetState) => NoHost
    case ShuttingDown(ResetAll) => NoHost
    case _ => known
  }

  function KnownAfter(known: Finding, h: Host, step: HostStep): Finding {
    if step.Advance? then Learned(known, h.api.holder, step.ok, step.paired) else known
  }

  function Known(steps: seq<HostStep>): Finding {
    if steps == [] then NoHost
    else
      var before, known, step := RunHost(steps[..|steps| - 1]), Known(steps[..|steps| - 1]), steps[|steps| - 1];
      if before.Some? then KnownAfter(known, before.value, step) else known
  }

  /* ---------- What the session told ---------- */

  // The callback of STARTED has done its write number `n`, and that of the terminal event
  // has not.
  predicate Shows(owner: Owner, o: Seen, written: nat, n: nat) {
    && owner != NoOwner
    && (if !owner.InCallback? then o.startedOut && o.terminal.None?
        else if owner.kind == Started then written > n else o.startedOut && written <= n)
  }

  // No callback of the session has done its first write.
  predicate Awaits(owner: Owner, o: Seen, written: nat) {
    && owner != NoOwner
    && (if owner.InCallback? then (owner.kind == Started || !o.startedOut) && written == 0
        else !o.startedOut && o.terminal.None?)
  }

  // What the API should see of the session.
  datatype Sight = Sight(awaited: bool, active: bool, streaming: bool)

  const DARK := Sight(false, false, false)

  function SightOf(owner: Owner, o: Seen, written: nat): Sight {
    Sight(Awaits(owner, o, written), Shows(owner, o, written, 1), Shows(owner, o, written, 2))
  }

  // Writes of start requests and of callbacks that came between each other: whether a
  // callback has begun to write since the last start request marked its stream as
  // pending; whether one had when the current session was admitted; and whether a start
  // request has put back the connection state that the session's STARTED had set.
  datatype Lapse = Lapse(begun: bool, missed: bool, overtaken: bool)

  function AdvanceLapse(l: Lapse, holder: Holder, running: bool): Lapse {
    match holder
    case Starting(MarkPending) => l.(begun := false)
    case Starting(AdmitSession) => if running then l else l.(missed := l.begun)
    case Starting(SetPaired) => l.(overtaken := true)
    case _ => l
  }

  function WriteLapse(l: Lapse, written: nat): Lapse {
    Lapse(l.begun || written == 0, l.missed, l.overtaken && written != 2)
  }

  function Lapsed(l: Lapse, h: Host, step: HostStep): Lapse {
    match step
    case Advance(_, _) => AdvanceLapse(l, h.api.holder, h.stream.flags.running)
    case OwnerWrites => WriteLapse(l, h.api.written)
    case _ => l
  }

  function LapseOf(steps: seq<HostStep>): Lapse {
    if steps == [] then Lapse(false, false, false)
    else
      var before, l := RunHost(steps[..|steps| - 1]), LapseOf(steps[..|steps| - 1]);
      if before.Some? then Lapsed(l, before.value, steps[|steps| - 1]) else l
  }

  /* ---------- The invariant ---------- */

  // The connection state is Disconnected without a host, Ready for one that is not paired.
  predicate ConnectionFits(a: Api, known: Finding) {
    && (a.hasHost <==> known != NoHost)
    && (a.connection.Disconnected? <==> known == NoHost)
    && (a.connection.Ready? <==> known == Stranger)
  }

  // A host's server record is initialized but while it is being replaced or released.
  predicate ServerFits(a: Api) {
    match a.holder
    case Connecting(InitServer) => !a.initialized
    case Cleaning(CloseServer) => true
    case Cleaning(ResetState) => !a.initialized
    case ShuttingDown(CloseLast) => true
    case ShuttingDown(ResetAll) => !a.initialized
    case _ => a.initialized == a.hasHost
  }

  predicate PendingFits(a: Api, v: Sight, l: Lapse) {
    match a.holder
    case Starting(MarkPending) => !a.pending && (v.awaited ==> l.missed)
    case Starting(AdmitSession) => (a.pending <==> !l.begun) && (v.awaited ==> l.missed)
    case Starting(CreateOwner) => v == Sight(true, false, false) && (a.pending <==> !l.missed)
    case Starting(UnmarkPending) => v.awaited ==> l.missed
    case _ => a.pending <==> v.awaited && !l.missed
  }

  predicate StateFits(a: Api, v: Sight, known: Finding, l: Lapse) {
    && ConnectionFits(a, known) && ServerFits(a) && PendingFits(a, v, l)
    && (a.holder == Pairing(RunPair) ==> known == Stranger)
    && (a.holder == Listing(RunApps) ==> known == Partner)
    && a.active == v.active
    && (a.connection == Streaming <==> v.streaming && !l.overtaken)
  }

  function SightOfHost(h: Host): Sight {
    SightOf(h.stream.owner, See(h.stream.word), h.api.written)
  }

  // The API's sessions have a callback, and its state fits what they show.
  predicate Agrees(a: Api, s: System, known: Finding, l: Lapse) {
    && StateFits(a, SightOf(s.owner, See(s.word), a.written), known, l)
    && (s.owner != NoOwner ==> See(s.word).admission == Some(true))
  }

  ghost predicate StateInv(h: Host, known: Finding, l: Lapse) {
    HostInv(h) && Agrees(h.api, h.stream, known, l)
  }

  /* ---------- The session's steps ---------- */

  predicate Plain(step: Step) {
    !step.Start? && !step.CreateFails? && !step.CallCallback? && !step.CallbackReturns? && !step.ReleaseOwner?
  }

  // Notes that tell the API nothing
  predicate Untold(n: Notes) {
    match n
    case Silent => true
    case One(a) => !a.Emit? && !a.Admission?
    case Two(a, b) => !a.Emit? && !a.Admission? && !b.Emit? && !b.Admission?
  }

  lemma QuietSeen(o: Seen, n: Notes)
    requires Untold(n)
    ensures var p := ObserveAll(o, n);
      p.startedOut == o.startedOut && p.terminal == o.terminal && p.admission == o.admission
  {
  }

  lemma PlainIsQuiet(id: nat, f: Flags, owner: Owner, step: Step)
    requires Can(owner, step) && Plain(step) && (f.running <==> owner != NoOwner)
    ensures var e := EffectOf(id, f, owner, step);
      && Untold(e.notes) && (e.owner == NoOwner <==> owner == NoOwner)
      && (e.owner == owner || (!e.owner.InCallback? && !owner.InCallback?))
  {
  }

  // What a session shows changes only with its callbacks' writes.
  lemma PlainShows(id: nat, f: Flags, owner: Owner, o: Seen, step: Step, written: nat)
    requires Can(owner, step) && Plain(step) && (f.running <==> owner != NoOwner)
    ensures var e := EffectOf(id, f, owner, step);
      && SightOf(e.owner, ObserveAll(o, e.notes), written) == SightOf(owner, o, written)
      && (e.owner == NoOwner <==> owner == NoOwner) && ObserveAll(o, e.notes).admission == o.admission
  {
    PlainIsQuiet(id, f, owner, step);
    QuietSeen(o, EffectOf(id, f, owner, step).notes);
  }

  lemma CallShows(id: nat, f: Flags, owner: Owner, o: Seen, written: nat)
    requires SessionInv(id, f, owner, o) && owner.Calling? && o.admission == Some(true)
    ensures var e := EffectOf(id, f, owner, CallCallback);
      && SightOf(e.owner, ObserveAll(o, e.notes), 0) == SightOf(owner, o, written)
      && e.owner != NoOwner && ObserveAll(o, e.notes).admission == o.admission
  {
  }

  lemma ReturnShows(id: nat, f: Flags, owner: Owner, o: Seen)
    requires SessionInv(id, f, owner, o) && owner.InCallback? && o.admission == Some(true)
    ensures var e := EffectOf(id, f, owner, CallbackReturns);
      && SightOf(e.owner, ObserveAll(o, e.notes), WRITES) == SightOf(owner, o, WRITES)
      && e.owner != NoOwner && ObserveAll(o, e.notes).admission == o.admission
  {
  }

  lemma ReleaseShows(id: nat, f: Flags, owner: Owner, o: Seen, written: nat)
    requires SessionInv(id, f, owner, o) && owner.Releasing? && o.admission == Some(true)
    ensures SightOf(owner, o, written) == DARK
    ensures EffectOf(id, f, owner, ReleaseOwner).owner == NoOwner
  {
  }

  // The writes of a callback start with its call.
  function WrittenAfter(step: Step, written: nat): nat {
    if step.CallCallback? then 0 else written
  }

  lemma EffectShows(id: nat, f: Flags, owner: Owner, o: Seen, step: Step, written: nat)
    requires SessionInv(id, f, owner, o) && Can(owner, step)
    requires !step.Start? && !step.CreateFails? && (step.CallbackReturns? ==> written == WRITES)
    requires owner != NoOwner ==> o.admission == Some(true)
    ensures var e := EffectOf(id, f, owner, step);
      if e.owner == NoOwner then SightOf(owner, o, written) == DARK
      else
        && SightOf(e.owner, ObserveAll(o, e.notes), WrittenAfter(step, written)) == SightOf(owner, o, written)
        && ObserveAll(o, e.notes).admission == Some(true)
  {
    if Plain(step) {
      PlainShows(id, f, owner, o, step, written);
    } else if step.CallCallback? {
      CallShows(id, f, owner, o, written);
    } else if step.CallbackReturns? {
      ReturnShows(id, f, owner, o);
    } else {
      ReleaseShows(id, f, owner, o, written);
    }
  }

  // What `h` shows after a step of the stream with this effect
  lemma ShowsAfter(s: System, step: Step, written: nat)
    requires Inv(s) && Can(s.owner, step)
    ensures var t, e := Do(s, step), EffectOf(|s.past|, s.flags, s.owner, step);
      if e.owner == NoOwner then SightOf(t.owner, See(t.word), written) == DARK && t.owner == NoOwner
      else
        && SightOf(t.owner, See(t.word), written) == SightOf(e.owner, ObserveAll(See(s.word), e.notes), written)
        && t.owner != NoOwner && See(t.word).admission == ObserveAll(See(s.word), e.notes).admission
  {
    WordsStep(s, step);
  }

  lemma StreamStepShows(s: System, written: nat, step: Step)
    requires Inv(s) && Can(s.owner, step)
    requires !step.Start? && !step.CreateFails? && (step.CallbackReturns? ==> written == WRITES)
    requires s.owner != NoOwner ==> See(s.word).admission == Some(true)
    ensures var t := Do(s, step);
      && SightOf(t.owner, See(t.word), WrittenAfter(step, written)) == SightOf(s.owner, See(s.word), written)
      && (t.owner != NoOwner ==> See(t.word).admission == Some(true))
  {
    ShowsAfter(s, step, WrittenAfter(step, written));
    EffectShows(|s.past|, s.flags, s.owner, See(s.word), step, written);
  }

  /* ---------- The API's steps ---------- */

  // What the holder's next step makes of what the session shows.
  predicate SightMoves(holder: Holder, running: bool, ok: bool, v: Sight, v': Sight) {
    match holder
    case Starting(AdmitSession) => v' == if running then v else Sight(true, false, false)
    case Starting(CreateOwner) => v' == if ok then v else DARK
    case _ => v' == v
  }

  predicate Serves(a: Api, v: Sight, running: bool) {
    && WorkerFlags(a)
    && (Exclusive(a.holder) ==> !running) && (!running ==> v == DARK)
    && (running || HasStarted(a) ==> a.connection == Paired || a.connection == Streaming)
  }

  lemma ConnectState(a: Api, v: Sight, known: Finding, l: Lapse, running: bool, ok: bool, paired: bool)
    requires StateFits(a, v, known, l) && Serves(a, v, running) && a.holder.Connecting?
    ensures StateFits(AdvanceConnect(a, a.holder.c, running, ok, paired), v, Learned(known, a.holder, ok, paired), l)
    ensures AdvanceConnect(a, a.holder.c, running, ok, paired).written == a.written
  {
  }

  lemma RequestState(a: Api, v: Sight, known: Finding, l: Lapse, running: bool, ok: bool, paired: bool)
    requires StateFits(a, v, known, l) && Serves(a, v, running) && IsShort(a.holder)
    ensures StateFits(AdvanceRequest(a, running, ok, paired), v, Learned(known, a.holder, ok, paired), l)
    ensures AdvanceRequest(a, running, ok, paired).written == a.written
  {
    if a.connection == Paired {
      PairedIsKnown(a, known);
    }
  }

  lemma PairedIsKnown(a: Api, known: Finding)
    requires ConnectionFits(a, known)
    ensures a.connection.Paired? || a.connection.Streaming? <==> known == Partner
  {
  }

  lemma StartState(a: Api, v: Sight, known: Finding, l: Lapse, running: bool, ok: bool, v': Sight)
    requires StateFits(a, v, known, l) && Serves(a, v, running) && a.holder.Starting?
    requires SightMoves(a.holder, running, ok, v, v')
    ensures StateFits(AdvanceStart(a, a.holder.s, running, ok), v', known, AdvanceLapse(l, a.holder, running))
    ensures AdvanceStart(a, a.holder.s, running, ok).written == a.written
  {
  }

  // Where the holder relies on nothing.
  predicate AtRest(h: Holder) {
    h.Free? || h.Disconnecting? || h.StoppingApp? || h.PreparingPin? || h == Connecting(CheckHost) || h == Pairing(CheckPair)
    || h == Listing(CheckApps) || h == Starting(CheckStart) || h == Cleaning(AwaitOwner) || h == ShuttingDown(StopOwner)
  }

  lemma RestState(a: Api, b: Api, v: Sight, known: Finding, l: Lapse)
    requires StateFits(a, v, known, l) && AtRest(a.holder) && AtRest(b.holder)
    requires b.hasHost == a.hasHost && b.initialized == a.initialized && b.connection == a.connection
    requires b.active == a.active && b.pending == a.pending
    ensures StateFits(b, v, known, l)
  {
  }

  lemma WorkerState(a: Api, v: Sight, known: Finding, l: Lapse, running: bool)
    requires StateFits(a, v, known, l) && Serves(a, v, running) && a.holder.Cleaning?
    ensures StateFits(AdvanceWorker(a, a.holder.w, running), v, Learned(known, a.holder, true, true), l)
    ensures AdvanceWorker(a, a.holder.w, running).written == a.written
  {
  }

  lemma ShutdownState(a: Api, v: Sight, known: Finding, l: Lapse, running: bool)
    requires StateFits(a, v, known, l) && Serves(a, v, running) && a.holder.ShuttingDown?
    ensures StateFits(AdvanceShutdown(a, a.holder.x, running), v, Learned(known, a.holder, true, true), l)
    ensures AdvanceShutdown(a, a.holder.x, running).written == a.written
  {
  }

  lemma AdvanceState(a: Api, v: Sight, known: Finding, l: Lapse, running: bool, ok: bool, paired: bool, v': Sight)
    requires StateFits(a, v, known, l) && Serves(a, v, running) && a.holder != Free
    requires SightMoves(a.holder, running, ok, v, v')
    ensures StateFits(AdvanceHolder(a, running, ok, paired), v', Learned(known, a.holder, ok, paired),
                      AdvanceLapse(l, a.holder, running))
    ensures AdvanceHolder(a, running, ok, paired).written == a.written
  {
    match a.holder {
      case Connecting(_) => ConnectState(a, v, known, l, running, ok, paired);
      case PreparingPin => RequestState(a, v, known, l, running, ok, paired);
      case Pairing(_) => RequestState(a, v, known, l, running, ok, paired);
      case Listing(_) => RequestState(a, v, known, l, running, ok, paired);
      case StoppingApp => RequestState(a, v, known, l, running, ok, paired);
      case Starting(_) => StartState(a, v, known, l, running, ok, v');
      case Disconnecting(d) => RestState(a, AdvanceDisconnect(a, d, ok), v, known, l);
      case Cleaning(_) => WorkerState(a, v, known, l, running);
      case ShuttingDown(_) => ShutdownState(a, v, known, l, running);
    }
  }

  lemma WriteState(a: Api, owner: Owner, o: Seen, known: Finding, l: Lapse)
    requires StateFits(a, SightOf(owner, o, a.written), known, l) && owner.InCallback? && a.written < WRITES
    requires (a.connection == Paired || a.connection == Streaming) && a.holder != Starting(CreateOwner)
    ensures StateFits(OwnerWrite(a, owner.kind), SightOf(owner, o, a.written + 1), known, WriteLapse(l, a.written))
  {
  }

 /* ---------- Every step keeps it ---------- */

  lemma AdmissionShows(s: System, step: Step, written: nat)
    requires Inv(s) && Can(s.owner, step) && (step == Start(true) || step.CreateFails?)
    ensures var t := Do(s, step);
      && SightOf(t.owner, See(t.word), written)
         == (if step.CreateFails? then DARK
             else if s.owner != NoOwner then SightOf(s.owner, See(s.word), written)
             else Sight(true, false, false))
      && (s.owner == NoOwner && t.owner != NoOwner ==> See(t.word).admission == Some(true))
      && (s.owner != NoOwner && t.owner != NoOwner ==> See(t.word).admission == See(s.word).admission)
  {
    ShowsAfter(s, step, written);
  }

  lemma AdvanceSight(h: Host, known: Finding, l: Lapse, ok: bool)
    requires StateInv(h, known, l) && h.api.holder != Free
    ensures var t := NextStream(h.stream, StreamPart(h.api, h.stream.flags.running, ok));
      && SightMoves(h.api.holder, h.stream.flags.running, ok, SightOfHost(h),
                    SightOf(t.owner, See(t.word), h.api.written))
      && (t.owner != NoOwner ==> See(t.word).admission == Some(true))
  {
    var part := StreamPart(h.api, h.stream.flags.running, ok);
    StreamPartPossible(h, ok);
    if part.Some? {
      if part.value == Start(true) || part.value.CreateFails? {
        AdmissionShows(h.stream, part.value, h.api.written);
      } else {
        StreamStepShows(h.stream, h.api.written, part.value);
      }
    }
  }

  lemma HostServes(h: Host)
    requires HostInv(h)
    ensures Serves(h.api, SightOfHost(h), h.stream.flags.running)
    ensures h.stream.owner.InCallback? ==>
      (h.api.connection == Paired || h.api.connection == Streaming) && h.api.holder != Starting(CreateOwner)
  {
  }

  lemma AdvanceStateKeeps(h: Host, known: Finding, l: Lapse, ok: bool, paired: bool)
    requires StateInv(h, known, l) && h.api.holder != Free
    ensures Agrees(NextApi(h, Advance(ok, paired)), NextStream(h.stream, StreamOf(h, Advance(ok, paired))),
                     Learned(known, h.api.holder, ok, paired), Lapsed(l, h, Advance(ok, paired)))
  {
    AdvanceSight(h, known, l, ok);
    HostServes(h);
    AdvanceFits(h, known, l, ok, paired, NextStream(h.stream, StreamPart(h.api, h.stream.flags.running, ok)));
  }

  lemma AdvanceFits(h: Host, known: Finding, l: Lapse, ok: bool, paired: bool, t: System)
    requires StateFits(h.api, SightOfHost(h), known, l) && h.api.holder != Free
    requires Serves(h.api, SightOfHost(h), h.stream.flags.running)
    requires SightMoves(h.api.holder, h.stream.flags.running, ok, SightOfHost(h),
                        SightOf(t.owner, See(t.word), h.api.written))
    requires t.owner != NoOwner ==> See(t.word).admission == Some(true)
    ensures Agrees(AdvanceHolder(h.api, h.stream.flags.running, ok, paired), t,
                     Learned(known, h.api.holder, ok, paired), AdvanceLapse(l, h.api.holder, h.stream.flags.running))
  {
    AdvanceState(h.api, SightOfHost(h), known, l, h.stream.flags.running, ok, paired,
                 SightOf(t.owner, See(t.word), h.api.written));
  }
  lemma StreamStateKeeps(h: Host, known: Finding, l: Lapse, st: Step)
    requires StateInv(h, known, l) && Possible(h, StreamStep(st))
    ensures Agrees(NextApi(h, StreamStep(st)), Do(h.stream, st), known, l)
  {
    StreamStepShows(h.stream, h.api.written, st);
    WriteCountIsNoState(h.api, SightOfHost(h), known, l, WrittenAfter(st, h.api.written));
  }

  lemma WriteCountIsNoState(a: Api, v: Sight, known: Finding, l: Lapse, written: nat)
    requires StateFits(a, v, known, l)
    ensures StateFits(a.(written := written), v, known, l)
  {
  }

  lemma WriteStateKeeps(h: Host, known: Finding, l: Lapse)
    requires StateInv(h, known, l) && Possible(h, OwnerWrites)
    ensures Agrees(NextApi(h, OwnerWrites), h.stream, known, WriteLapse(l, h.api.written))
  {
    HostServes(h);
    WriteState(h.api, h.stream.owner, See(h.stream.word), known, l);
  }

  lemma LockStateKeeps(h: Host, known: Finding, l: Lapse, step: HostStep)
    requires StateInv(h, known, l) && Possible(h, step)
    requires step.TryRequest? || step.TryDisconnect? || step.WorkerLocks? || step.ShutdownLocks?
    ensures Agrees(NextApi(h, step), h.stream, known, l)
  {
    RestState(h.api, NextApi(h, step), SightOfHost(h), known, l);
  }

  lemma NextAgrees(h: Host, known: Finding, l: Lapse, step: HostStep)
    requires StateInv(h, known, l) && Possible(h, step)
    ensures Agrees(NextApi(h, step), NextStream(h.stream, StreamOf(h, step)), KnownAfter(known, h, step),
                   Lapsed(l, h, step))
  {
    if step.Advance? {
      AdvanceStateKeeps(h, known, l, step.ok, step.paired);
    } else if step.StreamStep? {
      StreamStateKeeps(h, known, l, step.step);
    } else if step.OwnerWrites? {
      WriteStateKeeps(h, known, l);
    } else {
      LockStateKeeps(h, known, l, step);
    }
  }

  lemma StateKept(h: Host, known: Finding, l: Lapse, step: HostStep)
    requires StateInv(h, known, l) && Possible(h, step)
    ensures StateInv(Next(h, step), KnownAfter(known, h, step), Lapsed(l, h, step))
  {
    HostStepKeeps(h, step);
    NextAgrees(h, known, l, step);
  }
  lemma {:induction false} StateHolds(steps: seq<HostStep>)
    requires RunHost(steps).Some?
    ensures StateInv(RunHost(steps).value, Known(steps), LapseOf(steps))
  {
    if steps != [] {
      StateHolds(steps[..|steps| - 1]);
      StateKept(RunHost(steps[..|steps| - 1]).value, Known(steps[..|steps| - 1]), LapseOf(steps[..|steps| - 1]),
                steps[|steps| - 1]);
    }
  }

  /* ---------- What every run guarantees ---------- */

  // The connection state tells what the requests found out about the host: Ready for a PC
  // that is not known to be paired, Paired or Streaming for one that is.
  lemma ConnectionIsKnown(steps: seq<HostStep>)
    requires RunHost(steps).Some?
    ensures var a := RunHost(steps).value.api;
      && (a.hasHost <==> Known(steps) != NoHost)
      && (a.connection.Disconnected? <==> Known(steps) == NoHost)
      && (a.connection.Ready? <==> Known(steps) == Stranger)
      && (a.connection.Paired? || a.connection.Streaming? <==> Known(steps) == Partner)
  {
    StateHolds(steps);
  }

  // A stream is active from the second write of STARTED to that of the terminal event.
  lemma ActiveIsStreaming(steps: seq<HostStep>)
    requires RunHost(steps).Some?
    ensures var h := RunHost(steps).value;
      h.api.active <==> Shows(h.stream.owner, See(h.stream.word), h.api.written, 1)
  {
    StateHolds(steps);
  }

  // The connection state is Streaming from the third write of STARTED to that of the
  // terminal event, exactly if no start request has put back Paired since.
  lemma StreamingUnlessOvertaken(steps: seq<HostStep>)
    requires RunHost(steps).Some?
    ensures var h := RunHost(steps).value;
      h.api.connection.Streaming? <==>
        Shows(h.stream.owner, See(h.stream.word), h.api.written, 2) && !LapseOf(steps).overtaken
  {
    StateHolds(steps);
  }

  // A stream is pending until the first write of its session's first callback, exactly if
  // the session before had not begun to write between the mark and the admission. Only a
  // start request that is about to be refused may show another value.
  lemma PendingUnlessMissed(steps: seq<HostStep>)
    requires RunHost(steps).Some?
    ensures var h := RunHost(steps).value;
      h.api.holder != Starting(AdmitSession) && h.api.holder != Starting(UnmarkPending) ==>
        (h.api.pending <==>
           Awaits(h.stream.owner, See(h.stream.word), h.api.written) && !LapseOf(steps).missed)
  {
    StateHolds(steps);
  }

  // Lists are loaded and streams started only with a PC that is known to be paired, and
  // pairing is run only with one that is not.
  lemma OnlyWithPairedHost(steps: seq<HostStep>)
    requires RunHost(steps).Some?
    ensures var holder := RunHost(steps).value.api.holder;
      && (holder == Listing(RunApps) || HasStarted(RunHost(steps).value.api) ==> Known(steps) == Partner)
      && (holder == Pairing(RunPair) ==> Known(steps) == Stranger)
  {
    StateHolds(steps);
  }

  lemma IdleChecks(a: Api, known: Finding, l: Lapse, ok: bool, paired: bool)
    requires StateFits(a, DARK, known, l) && Serves(a, DARK, false)
    ensures var next := AdvanceHolder(a, false, ok, paired).holder;
      && (a.holder == Connecting(CheckHost) ==> next == if ok then Connecting(PrepareConnect) else Free)
      && (a.holder == Connecting(PrepareConnect) ==>
            next == if !ok then Free else if known == NoHost then Connecting(InitServer) else Connecting(ReplaceServer))
      && (a.holder == Pairing(CheckPair) ==> next == if ok && known == Stranger then Pairing(RunPair) else Free)
      && (a.holder == Listing(CheckApps) ==> next == if ok && known == Partner then Listing(RunApps) else Free)
      && (a.holder == Starting(CheckStart) ==> next == if ok && known == Partner then Starting(MarkPending) else Free)
  {
    PairedIsKnown(a, known);
  }

  // Without a stream owner a request passes its checks exactly when the host is as it
  // needs it, and other conditions, which are not modelled, are met.
  lemma IdleRequestsPass(steps: seq<HostStep>, ok: bool, paired: bool)
    requires RunHost(steps).Some? && RunHost(steps).value.stream.owner == NoOwner
    ensures var a, known := RunHost(steps).value.api, Known(steps);
      var next := AdvanceHolder(a, false, ok, paired).holder;
      && (a.holder == Connecting(CheckHost) ==> next == if ok then Connecting(PrepareConnect) else Free)
      && (a.holder == Connecting(PrepareConnect) ==>
            next == if !ok then Free else if known == NoHost then Connecting(InitServer) else Connecting(ReplaceServer))
      && (a.holder == Pairing(CheckPair) ==> next == if ok && known == Stranger then Pairing(RunPair) else Free)
      && (a.holder == Listing(CheckApps) ==> next == if ok && known == Partner then Listing(RunApps) else Free)
      && (a.holder == Starting(CheckStart) ==> next == if ok && known == Partner then Starting(MarkPending) else Free)
  {
    StateHolds(steps);
    HostServes(RunHost(steps).value);
    IdleChecks(RunHost(steps).value.api, Known(steps), LapseOf(steps), ok, paired);
  }

  // The stream is shown as starting or active.
  predicate Shown(v: Sight, l: Lapse) {
    v.active || (v.awaited && !l.missed)
  }

  lemma BusyChecks(a: Api, v: Sight, known: Finding, l: Lapse, ok: bool, paired: bool)
    requires StateFits(a, v, known, l) && Serves(a, v, true)
    ensures a.holder == Connecting(CheckHost) || a.holder == Listing(CheckApps) ==>
      AdvanceHolder(a, true, ok, paired).holder == Free
    ensures a.holder == Starting(CheckStart) ==>
      AdvanceHolder(a, true, ok, paired).holder ==
        if ok && !Shown(v, l) && !(v.streaming && !l.overtaken) then Starting(MarkPending) else Free
    ensures a.holder == Starting(RestoreState) ==>
      AdvanceHolder(a, true, ok, paired).holder == if v.active then Free else Starting(SetPaired)
    ensures a.holder == StoppingApp ==> StreamPart(a, true, ok) == if Shown(v, l) then Some(RequestStop) else None
  {
    PairedIsKnown(a, known);
  }

  // With one, none of them passes, but for a start request between the first two writes of
  // STARTED, after the third of the terminal event, or when the stream's mark was missed.
  // One that is refused puts back Paired unless the stream is active. A stop request is
  // passed on exactly when the stream is shown as starting or active.
  lemma BusyRequests(steps: seq<HostStep>, ok: bool, paired: bool)
    requires RunHost(steps).Some? && RunHost(steps).value.stream.owner != NoOwner
    ensures var a, v, l := RunHost(steps).value.api, SightOfHost(RunHost(steps).value), LapseOf(steps);
      && (a.holder == Connecting(CheckHost) || a.holder == Listing(CheckApps) ==>
            AdvanceHolder(a, true, ok, paired).holder == Free)
      && (a.holder == Starting(CheckStart) ==>
            AdvanceHolder(a, true, ok, paired).holder ==
              if ok && !Shown(v, l) && !(v.streaming && !l.overtaken) then Starting(MarkPending) else Free)
      && (a.holder == Starting(RestoreState) ==>
            AdvanceHolder(a, true, ok, paired).holder == if v.active then Free else Starting(SetPaired))
      && (a.holder == StoppingApp ==> StreamPart(a, true, ok) == if Shown(v, l) then Some(RequestStop) else None)
  {
    StateHolds(steps);
    HostServes(RunHost(steps).value);
    BusyChecks(RunHost(steps).value.api, SightOfHost(RunHost(steps).value), Known(steps), LapseOf(steps), ok, paired);
  }

  // A disconnect of a host is accepted, unless one is open or its worker cannot be created.
  lemma DisconnectPasses(steps: seq<HostStep>, ok: bool)
    requires RunHost(steps).Some? && RunHost(steps).value.api.holder.Disconnecting?
    ensures var a := RunHost(steps).value.api;
      var next := AdvanceDisconnect(a, a.holder.d, ok);
      match a.holder.d
      case CheckDisconnect =>
        next.holder == if Known(steps) != NoHost && PhaseOf(a.log) == Quiet then Disconnecting(StopSession)
                       else Free
      case StopSession => next.holder == Disconnecting(MarkWorker)
      case MarkWorker => next.holder == Disconnecting(CreateWorker)
      case CreateWorker => next.holder == if ok then Disconnecting(PublishPending) else Free
      case PublishPending => next.holder == Disconnecting(Unlock) && next.log == a.log + [DisconnectAccepted]
      case Unlock => next.holder == Free && next.workerAlive && next.log == a.log
  {
    StateHolds(steps);
  }

  // The mutex is taken by a disconnect, by a worker that was created, and by shutdown as
  // soon as there is no worker.
  lemma LocksAreTaken(steps: seq<HostStep>)
    requires RunHost(steps).Some? && RunHost(steps).value.api.holder == Free
    ensures var h := RunHost(steps).value;
      && NextApi(h, TryDisconnect) == h.api.(holder := Disconnecting(CheckDisconnect))
      && (h.api.workerAlive ==> NextApi(h, WorkerLocks) == h.api.(holder := Cleaning(AwaitOwner)))
      && (h.api.workerAlive <==> PhaseOf(h.api.log) != Quiet)
      && NextApi(h, ShutdownLocks)
         == if h.api.workerAlive then h.api else h.api.(holder := ShuttingDown(StopOwner))
  {
    HostRunKeeps(steps);
  }

  // How many steps the holder has left at most, waiting for a stream owner apart
  function StepsLeft(h: Holder): nat {
    match h
    case Free => 0
    case Connecting(at) =>
      (match at case CheckHost => 4 case PrepareConnect => 3 case ReplaceServer => 2 case InitServer => 1)
    case PreparingPin => 1
    case Pairing(at) => if at == CheckPair then 2 else 1
    case Listing(at) => if at == CheckApps then 2 else 1
    case Starting(at) =>
      (match at case CheckStart => 7 case MarkPending => 6 case AdmitSession => 5 case CreateOwner => 4
       case UnmarkPending => 3 case RestoreState => 2 case SetPaired => 1)
    case StoppingApp => 1
    case Disconnecting(at) =>
      (match at case CheckDisconnect => 6 case StopSession => 5 case MarkWorker => 4 case CreateWorker => 3
       case PublishPending => 2 case Unlock => 1)
    case Cleaning(at) =>
      (match at case AwaitOwner => 9 case CheckServer => 8 case CloseServer => 7 case ResetState => 6
       case EmitClosed => 5 case ClosedCallback => 4 case ClearRunning => 3 case ClearPending => 2 case LeaveWorker => 1)
    case ShuttingDown(at) =>
      (match at case StopOwner => 5 case AwaitStop => 4 case CheckLast => 3 case CloseLast => 2 case ResetAll => 1)
  }

  // Where the holder waits for the stream owner to be gone
  predicate Waits(h: Holder) {
    h == Cleaning(AwaitOwner) || h == ShuttingDown(AwaitStop)
  }

  // The mutex is always given back: every step of its holder brings that nearer, but for
  // waiting for an owner, which was told to stop and then ends by EndsInTime.
  lemma HolderGetsOn(steps: seq<HostStep>, ok: bool, paired: bool)
    requires RunHost(steps).Some? && RunHost(steps).value.api.holder != Free
    ensures var h := RunHost(steps).value;
      if Waits(h.api.holder) && h.stream.owner != NoOwner then StopAsked in h.stream.word
      else StepsLeft(NextApi(h, Advance(ok, paired)).holder) < StepsLeft(h.api.holder)
  {
    HostRunKeeps(steps);
    MarkedMeans(RunHost(steps).value.stream.word, StopAsked);
    var h := RunHost(steps).value;
    if !Waits(h.api.holder) || h.stream.owner == NoOwner {
      StepsOn(h.api, h.stream.flags.running, ok, paired);
    }
  }

  lemma ConnectOn(a: Api, at: ConnectAt, running: bool, ok: bool, paired: bool)
    requires a.holder == Connecting(at)
    ensures StepsLeft(AdvanceConnect(a, at, running, ok, paired).holder) < StepsLeft(Connecting(at))
  {
    match at {
      case CheckHost =>
      case PrepareConnect =>
      case ReplaceServer =>
      case InitServer =>
    }
  }

  lemma StartOn(a: Api, at: StartAt, running: bool, ok: bool)
    requires a.holder == Starting(at)
    ensures StepsLeft(AdvanceStart(a, at, running, ok).holder) < StepsLeft(Starting(at))
  {
    match at {
      case CheckStart =>
      case MarkPending =>
      case AdmitSession =>
      case CreateOwner =>
      case UnmarkPending =>
      case RestoreState =>
      case SetPaired =>
    }
  }

  lemma DisconnectOn(a: Api, at: DisconnectAt, ok: bool)
    requires a.holder == Disconnecting(at)
    ensures StepsLeft(AdvanceDisconnect(a, at, ok).holder) < StepsLeft(Disconnecting(at))
  {
    match at {
      case CheckDisconnect =>
      case StopSession =>
      case MarkWorker =>
      case CreateWorker =>
      case PublishPending =>
      case Unlock =>
    }
  }

  lemma WorkerOn(a: Api, at: WorkerAt, running: bool)
    requires a.holder == Cleaning(at) && (Waits(a.holder) ==> !running)
    ensures StepsLeft(AdvanceWorker(a, at, running).holder) < StepsLeft(Cleaning(at))
  {
    match at {
      case AwaitOwner =>
      case CheckServer =>
      case CloseServer =>
      case ResetState =>
      case EmitClosed =>
      case ClosedCallback =>
      case ClearRunning =>
      case ClearPending =>
      case LeaveWorker =>
    }
  }

  lemma ShutdownOn(a: Api, at: ShutdownAt, running: bool)
    requires a.holder == ShuttingDown(at) && (Waits(a.holder) ==> !running)
    ensures StepsLeft(AdvanceShutdown(a, at, running).holder) < StepsLeft(ShuttingDown(at))
  {
    match at {
      case StopOwner =>
      case AwaitStop =>
      case CheckLast =>
      case CloseLast =>
      case ResetAll =>
    }
  }

  lemma RequestOn(a: Api, running: bool, ok: bool, paired: bool)
    requires IsShort(a.holder)
    ensures StepsLeft(AdvanceRequest(a, running, ok, paired).holder) < StepsLeft(a.holder)
  {
  }

  lemma StepsOn(a: Api, running: bool, ok: bool, paired: bool)
    requires a.holder != Free && (Waits(a.holder) ==> !running)
    ensures StepsLeft(AdvanceHolder(a, running, ok, paired).holder) < StepsLeft(a.holder)
  {
    if IsShort(a.holder) {
      RequestOn(a, running, ok, paired);
    } else {
      match a.holder {
        case Connecting(at) => ConnectOn(a, at, running, ok, paired);
        case Starting(at) => StartOn(a, at, running, ok);
        case Disconnecting(at) => DisconnectOn(a, at, ok);
        case Cleaning(at) => WorkerOn(a, at, running);
        case ShuttingDown(at) => ShutdownOn(a, at, running);
      }
    }
  }

  // The holder is in a critical section of this request.
  predicate Runs(h: Holder, request: Request) {
    match request
    case ConnectRequest => h.Connecting?
    case PinRequest => h.PreparingPin?
    case PairRequest => h.Pairing?
    case AppsRequest => h.Listing?
    case StartRequest => h.Starting?
    case StopRequest => h.StoppingApp?
  }

  // A request that finds the mutex free is admitted, and runs next, exactly when no
  // disconnect is open.
  lemma AdmittedUnlessPending(steps: seq<HostStep>, request: Request)
    requires RunHost(steps).Some? && RunHost(steps).value.api.holder == Free
    ensures var h := RunHost(steps).value;
      var next := Next(h, TryRequest(request));
      if PhaseOf(h.api.log) == Quiet then
        && next.api.log == h.api.log + [Admitted(request)] && Runs(next.api.holder, request)
        && next.api.(log := h.api.log, holder := Free) == h.api && next.stream == h.stream
      else next == h
  {
    HostRunKeeps(steps);
  }
}
