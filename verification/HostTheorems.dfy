// What the control mutex and the disconnect flag of src/moonlight/api.cpp guarantee in
// every interleaving.
module HostTheorems {
  import opened Options
  import opened StreamFlags
  import opened StreamSession
  import opened StreamTheorems
  import opened HostControl

  /* ---------- What the log has to look like ---------- */

  datatype Phase = Quiet | Pending | Closing

  function PhaseAfter(p: Phase, n: Note): Phase {
    match n
    case Admitted(_) => p
    case DisconnectAccepted => Pending
    case ClosedEmitted => Closing
    case ClosedReturned => Quiet
  }

  function PhaseOf(log: seq<Note>): Phase {
    if log == [] then Quiet else PhaseAfter(PhaseOf(log[..|log| - 1]), log[|log| - 1])
  }

  // Requests are admitted, and a disconnect accepted, only when no disconnect is open;
  // CLOSED is emitted once for it.
  predicate MayLog(p: Phase, n: Note) {
    match n
    case Admitted(_) => p == Quiet
    case DisconnectAccepted => p == Quiet
    case ClosedEmitted => p == Pending
    case ClosedReturned => p == Closing
  }

  ghost predicate LawfulLog(log: seq<Note>) {
    log != [] ==>
      var n := |log| - 1;
      LawfulLog(log[..n]) && MayLog(PhaseOf(log[..n]), log[n])
  }

  /* ---------- The invariant ---------- */

  // Where the holder relies on there being no stream owner: it drives the server
  // record, or releases it, or reports the closed connection.
  predicate Exclusive(h: Holder) {
    match h
    case Connecting(at) => at != CheckHost
    case Pairing(at) => at == RunPair
    case Listing(at) => at == RunApps
    case Cleaning(at) => at != AwaitOwner
    case ShuttingDown(at) => at == CheckLast || at == CloseLast || at == ResetAll
    case _ => false
  }

  // The worker's flags, by who holds the mutex.
  predicate WorkerFlags(a: Api) {
    match a.holder
    case Free => a.workerRunning == a.disconnectPending == a.workerAlive
    case Disconnecting(CheckDisconnect) => a.workerRunning == a.disconnectPending == a.workerAlive
    case Disconnecting(CreateWorker) => a.workerRunning && !a.disconnectPending && !a.workerAlive
    case Disconnecting(PublishPending) => a.workerRunning && !a.disconnectPending && a.workerAlive
    case Disconnecting(Unlock) => a.workerRunning && a.disconnectPending && a.workerAlive
    case Cleaning(at) =>
      && a.workerAlive
      && (a.workerRunning <==> at != ClearPending && at != LeaveWorker)
      && (a.disconnectPending <==> at != LeaveWorker)
    case _ => !a.workerRunning && !a.disconnectPending && !a.workerAlive
  }

  predicate PhaseFits(a: Api, p: Phase) {
    match a.holder
    case Cleaning(ClosedCallback) => p == Closing
    case Cleaning(ClearRunning) => p == Quiet
    case Cleaning(ClearPending) => p == Quiet
    case _ => p == if a.disconnectPending then Pending else Quiet
  }

  predicate HasStarted(a: Api) {
    a.holder.Starting? && a.holder.s != CheckStart
  }

  predicate SessionFlags(a: Api, running: bool, creating: bool) {
    && (creating <==> a.holder == Starting(CreateOwner))
    && (creating ==> running)
    && (Exclusive(a.holder) ==> !running)
    && (running || HasStarted(a) ==> a.connection == Paired || a.connection == Streaming)
  }

  // From the moment a disconnect or shutdown has stopped the session, a remaining owner is
  // cancelled.
  predicate Told(a: Api, running: bool, cancelled: bool) {
    (a.workerRunning || a.holder == Disconnecting(MarkWorker) || a.holder == ShuttingDown(AwaitStop)) && running
    ==> cancelled
  }

  ghost predicate HostInv(h: Host) {
    && Inv(h.stream)
    && Fits(h.api, PhaseOf(h.api.log))
    && LawfulLog(h.api.log)
    && SessionFlags(h.api, h.stream.flags.running, h.stream.owner == Creating)
    && Told(h.api, h.stream.flags.running, h.stream.flags.cancelRequested)
  }

  /* ---------- Every step keeps it ---------- */

  lemma LogAppend(log: seq<Note>, n: Note)
    requires LawfulLog(log) && MayLog(PhaseOf(log), n)
    ensures LawfulLog(log + [n]) && PhaseOf(log + [n]) == PhaseAfter(PhaseOf(log), n)
  {
    assert (log + [n])[..|log|] == log;
  }

  lemma {:induction false} LawfulAt(log: seq<Note>, i: nat)
    requires LawfulLog(log) && i < |log|
    ensures MayLog(PhaseOf(log[..i]), log[i])
  {
    if i < |log| - 1 {
      LawfulAt(log[..|log| - 1], i);
      assert log[..|log| - 1][..i] == log[..i];
    }
  }

  // How a stream step changes whether there is an owner, and one still being created.
  predicate Moves(step: Option<Step>, running: bool, creating: bool, running': bool, creating': bool) {
    match step
    case None => running' == running && creating' == creating
    case Some(Start(_)) => running' && (creating' <==> !running || creating)
    case Some(CreateOk) => running' && !creating'
    case Some(CreateFails) => !running' && !creating'
    case Some(_) => (running' ==> running) && creating' == creating
  }

  lemma StreamMoves(s: System, step: Step)
    requires Inv(s) && Can(s.owner, step)
    ensures Moves(Some(step), s.flags.running, s.owner == Creating,
                  Do(s, step).flags.running, Do(s, step).owner == Creating)
  {
  }

  // What a step of the holder keeps of the flags and of the phase.
  predicate Fits(a: Api, p: Phase) {
    WorkerFlags(a) && PhaseFits(a, p)
  }

  lemma RequestFits(a: Api, p: Phase, running: bool, ok: bool, paired: bool)
    requires Fits(a, p) && IsShort(a.holder)
    ensures Fits(AdvanceRequest(a, running, ok, paired), p)
    ensures AdvanceRequest(a, running, ok, paired).log == a.log
  {
  }

  lemma ConnectFits(a: Api, p: Phase, at: ConnectAt, running: bool, ok: bool, paired: bool)
    requires Fits(a, p) && a.holder == Connecting(at)
    ensures Fits(AdvanceConnect(a, at, running, ok, paired), p)
    ensures AdvanceConnect(a, at, running, ok, paired).log == a.log
  {
  }

  lemma StartFits(a: Api, p: Phase, at: StartAt, running: bool, ok: bool)
    requires Fits(a, p) && a.holder == Starting(at)
    ensures Fits(AdvanceStart(a, at, running, ok), p)
    ensures AdvanceStart(a, at, running, ok).log == a.log
  {
  }

  lemma DisconnectFits(a: Api, p: Phase, at: DisconnectAt, ok: bool)
    requires Fits(a, p) && a.holder == Disconnecting(at)
    ensures at != PublishPending ==>
      Fits(AdvanceDisconnect(a, at, ok), p) && AdvanceDisconnect(a, at, ok).log == a.log
    ensures at == PublishPending ==>
      && MayLog(p, DisconnectAccepted) && Fits(AdvanceDisconnect(a, at, ok), Pending)
      && AdvanceDisconnect(a, at, ok).log == a.log + [DisconnectAccepted]
  {
  }

  lemma WorkerFits(a: Api, p: Phase, at: WorkerAt, running: bool)
    requires Fits(a, p) && a.holder == Cleaning(at)
    ensures at != EmitClosed && at != ClosedCallback ==>
      Fits(AdvanceWorker(a, at, running), p) && AdvanceWorker(a, at, running).log == a.log
    ensures at == EmitClosed ==>
      && MayLog(p, ClosedEmitted) && Fits(AdvanceWorker(a, at, running), Closing)
      && AdvanceWorker(a, at, running).log == a.log + [ClosedEmitted]
    ensures at == ClosedCallback ==>
      && MayLog(p, ClosedReturned) && Fits(AdvanceWorker(a, at, running), Quiet)
      && AdvanceWorker(a, at, running).log == a.log + [ClosedReturned]
  {
  }

  lemma ShutdownFits(a: Api, p: Phase, at: ShutdownAt, running: bool)
    requires Fits(a, p) && a.holder == ShuttingDown(at)
    ensures Fits(AdvanceShutdown(a, at, running), p)
    ensures AdvanceShutdown(a, at, running).log == a.log
  {
  }

  lemma AdvanceFits(a: Api, running: bool, ok: bool, paired: bool)
    requires Fits(a, PhaseOf(a.log)) && LawfulLog(a.log) && a.holder != Free
    ensures var a' := AdvanceHolder(a, running, ok, paired); Fits(a', PhaseOf(a'.log)) && LawfulLog(a'.log)
  {
    var p := PhaseOf(a.log);
    match a.holder {
      case Connecting(at) => ConnectFits(a, p, at, running, ok, paired);
      case PreparingPin => RequestFits(a, p, running, ok, paired);
      case Pairing(_) => RequestFits(a, p, running, ok, paired);
      case Listing(_) => RequestFits(a, p, running, ok, paired);
      case StoppingApp => RequestFits(a, p, running, ok, paired);
      case Starting(at) => StartFits(a, p, at, running, ok);
      case Disconnecting(at) =>
        DisconnectFits(a, p, at, ok);
        if at == PublishPending {
          LogAppend(a.log, DisconnectAccepted);
        }
      case Cleaning(at) =>
        WorkerFits(a, p, at, running);
        if at == EmitClosed {
          LogAppend(a.log, ClosedEmitted);
        } else if at == ClosedCallback {
          LogAppend(a.log, ClosedReturned);
        }
      case ShuttingDown(at) => ShutdownFits(a, p, at, running);
    }
  }

  lemma RequestLogged(h: Host, request: Request)
    requires Fits(h.api, PhaseOf(h.api.log)) && LawfulLog(h.api.log) && h.api.holder == Free
    requires !h.api.disconnectPending
    ensures var a' := NextApi(h, TryRequest(request)); Fits(a', PhaseOf(a'.log)) && LawfulLog(a'.log)
  {
    LogAppend(h.api.log, Admitted(request));
  }

  lemma NextApiKeeps(h: Host, step: HostStep)
    requires Fits(h.api, PhaseOf(h.api.log)) && LawfulLog(h.api.log) && Possible(h, step)
    ensures var a' := NextApi(h, step); Fits(a', PhaseOf(a'.log)) && LawfulLog(a'.log)
  {
    if step.Advance? {
      AdvanceFits(h.api, h.stream.flags.running, step.ok, step.paired);
    } else if step.TryRequest? && !h.api.disconnectPending {
      RequestLogged(h, step.request);
    }
  }

  lemma RequestSession(a: Api, r: bool, c: bool, ok: bool, paired: bool, r': bool, c': bool)
    requires SessionFlags(a, r, c) && IsShort(a.holder)
    requires (r' ==> r) && c' == c
    ensures SessionFlags(AdvanceRequest(a, r, ok, paired), r', c')
  {
  }

  lemma ConnectSession(a: Api, at: ConnectAt, r: bool, c: bool, ok: bool, paired: bool)
    requires SessionFlags(a, r, c) && a.holder == Connecting(at)
    ensures SessionFlags(AdvanceConnect(a, at, r, ok, paired), r, c)
  {
  }

  lemma StartSession(a: Api, at: StartAt, r: bool, c: bool, ok: bool, r': bool, c': bool)
    requires SessionFlags(a, r, c) && a.holder == Starting(at)
    requires Moves(StreamPart(a, r, ok), r, c, r', c')
    ensures SessionFlags(AdvanceStart(a, at, r, ok), r', c')
  {
  }

  lemma DisconnectSession(a: Api, at: DisconnectAt, r: bool, c: bool, ok: bool, r': bool, c': bool)
    requires SessionFlags(a, r, c) && a.holder == Disconnecting(at)
    requires Moves(StreamPart(a, r, ok), r, c, r', c')
    ensures SessionFlags(AdvanceDisconnect(a, at, ok), r', c')
  {
  }

  lemma WorkerSession(a: Api, at: WorkerAt, r: bool, c: bool)
    requires SessionFlags(a, r, c) && a.holder == Cleaning(at)
    ensures SessionFlags(AdvanceWorker(a, at, r), r, c)
  {
  }

  lemma ShutdownSession(a: Api, at: ShutdownAt, r: bool, c: bool, ok: bool, r': bool, c': bool)
    requires SessionFlags(a, r, c) && a.holder == ShuttingDown(at)
    requires Moves(StreamPart(a, r, ok), r, c, r', c')
    ensures SessionFlags(AdvanceShutdown(a, at, r), r', c')
  {
  }

  lemma AdvanceSession(a: Api, r: bool, c: bool, ok: bool, paired: bool, r': bool, c': bool)
    requires SessionFlags(a, r, c) && a.holder != Free
    requires Moves(StreamPart(a, r, ok), r, c, r', c')
    ensures SessionFlags(AdvanceHolder(a, r, ok, paired), r', c')
  {
    match a.holder {
      case Connecting(at) => ConnectSession(a, at, r, c, ok, paired);
      case PreparingPin => RequestSession(a, r, c, ok, paired, r', c');
      case Pairing(_) => RequestSession(a, r, c, ok, paired, r', c');
      case Listing(_) => RequestSession(a, r, c, ok, paired, r', c');
      case StoppingApp => RequestSession(a, r, c, ok, paired, r', c');
      case Starting(at) => StartSession(a, at, r, c, ok, r', c');
      case Disconnecting(at) => DisconnectSession(a, at, r, c, ok, r', c');
      case Cleaning(at) => WorkerSession(a, at, r, c);
      case ShuttingDown(at) => ShutdownSession(a, at, r, c, ok, r', c');
    }
  }

  // The holder's stream steps can always be taken.
  lemma StreamPartPossible(h: Host, ok: bool)
    requires HostInv(h)
    ensures var part := StreamPart(h.api, h.stream.flags.running, ok);
      part.Some? ==> Can(h.stream.owner, part.value)
  {
  }

  predicate Stays(step: Option<Step>, running: bool, cancelled: bool, running': bool, cancelled': bool) {
    match step
    case None => running' == running && cancelled' == cancelled
    case Some(RequestStop) => running' ==> cancelled'
    case Some(Start(_)) => true
    case Some(_) => running' ==> running && cancelled' == cancelled
  }

  lemma StreamStays(s: System, step: Step)
    requires Inv(s) && Can(s.owner, step)
    ensures Stays(Some(step), s.flags.running, s.flags.cancelRequested,
                  Do(s, step).flags.running, Do(s, step).flags.cancelRequested)
  {
    var e := EffectOf(|s.past|, s.flags, s.owner, step);
    assert Do(s, step).flags == e.flags;
    match step {
      case RequestStop =>
      case Start(_) =>
      case _ =>
    }
  }

  lemma StartTold(a: Api, at: StartAt, r: bool, t: bool, ok: bool, r': bool, t': bool)
    requires Told(a, r, t) && WorkerFlags(a) && a.holder == Starting(at)
    ensures Told(AdvanceStart(a, at, r, ok), r', t')
  {
  }

  lemma AdvanceTold(a: Api, r: bool, t: bool, ok: bool, paired: bool, r': bool, t': bool)
    requires Told(a, r, t) && WorkerFlags(a) && a.holder != Free
    requires Stays(StreamPart(a, r, ok), r, t, r', t')
    ensures Told(AdvanceHolder(a, r, ok, paired), r', t')
  {
    if a.holder.Starting? {
      StartTold(a, a.holder.s, r, t, ok, r', t');
    }
  }

  // The stream's side of a host step.
  lemma StreamSide(h: Host, step: HostStep)
    requires HostInv(h) && Possible(h, step)
    ensures var f, s', part := h.stream.flags, NextStream(h.stream, StreamOf(h, step)), StreamOf(h, step);
      && Inv(s')
      && Moves(part, f.running, h.stream.owner == Creating, s'.flags.running, s'.owner == Creating)
      && Stays(part, f.running, f.cancelRequested, s'.flags.running, s'.flags.cancelRequested)
  {
    if step.Advance? {
      StreamPartPossible(h, step.ok);
    }
    var part := StreamOf(h, step);
    if part.Some? {
      StepKeeps(h.stream, part.value);
      StreamMoves(h.stream, part.value);
      StreamStays(h.stream, part.value);
    }
  }

  // The holder's side, where it takes no step of its own.
  lemma OtherKeeps(h: Host, step: HostStep, s': System)
    requires Possible(h, step) && !step.Advance? && WorkerFlags(h.api)
    requires h.stream.flags.running <==> h.stream.owner != NoOwner
    requires s'.owner == Creating ==> s'.flags.running
    requires SessionFlags(h.api, h.stream.flags.running, h.stream.owner == Creating)
    requires Told(h.api, h.stream.flags.running, h.stream.flags.cancelRequested)
    requires Moves(StreamOf(h, step), h.stream.flags.running, h.stream.owner == Creating,
                   s'.flags.running, s'.owner == Creating)
    requires Stays(StreamOf(h, step), h.stream.flags.running, h.stream.flags.cancelRequested,
                   s'.flags.running, s'.flags.cancelRequested)
    ensures SessionFlags(NextApi(h, step), s'.flags.running, s'.owner == Creating)
    ensures Told(NextApi(h, step), s'.flags.running, s'.flags.cancelRequested)
  {
  }

  lemma AdvanceStepKeeps(h: Host, step: HostStep)
    requires HostInv(h) && Possible(h, step) && step.Advance?
    ensures var a', s' := NextApi(h, step), NextStream(h.stream, StreamOf(h, step));
      && SessionFlags(a', s'.flags.running, s'.owner == Creating)
      && Told(a', s'.flags.running, s'.flags.cancelRequested)
  {
    var f, s' := h.stream.flags, NextStream(h.stream, StreamOf(h, step));
    StreamSide(h, step);
    AdvanceSession(h.api, f.running, h.stream.owner == Creating, step.ok, step.paired,
                   s'.flags.running, s'.owner == Creating);
    AdvanceTold(h.api, f.running, f.cancelRequested, step.ok, step.paired,
                s'.flags.running, s'.flags.cancelRequested);
  }

  lemma OtherStepKeeps(h: Host, step: HostStep)
    requires HostInv(h) && Possible(h, step) && !step.Advance?
    ensures var a', s' := NextApi(h, step), NextStream(h.stream, StreamOf(h, step));
      && SessionFlags(a', s'.flags.running, s'.owner == Creating)
      && Told(a', s'.flags.running, s'.flags.cancelRequested)
  {
    StreamSide(h, step);
    OtherKeeps(h, step, NextStream(h.stream, StreamOf(h, step)));
  }

  lemma HostStepKeeps(h: Host, step: HostStep)
    requires HostInv(h) && Possible(h, step)
    ensures HostInv(Next(h, step))
  {
    NextApiKeeps(h, step);
    StreamSide(h, step);
    if step.Advance? {
      AdvanceStepKeeps(h, step);
    } else {
      OtherStepKeeps(h, step);
    }
  }

  lemma {:induction false} HostRunKeeps(steps: seq<HostStep>)
    requires RunHost(steps).Some?
    ensures HostInv(RunHost(steps).value)
  {
    if steps != [] {
      HostRunKeeps(steps[..|steps| - 1]);
      HostStepKeeps(RunHost(steps[..|steps| - 1]).value, steps[|steps| - 1]);
    }
  }

  /* ---------- What every run guarantees ---------- */

  // The holder is inside a call that uses or releases the server record.
  predicate DrivesServer(h: Holder) {
    || h == Connecting(ReplaceServer) || h == Connecting(InitServer)
    || h == Pairing(RunPair) || h == Listing(RunApps)
    || h == Cleaning(CloseServer) || h == ShuttingDown(CloseLast)
  }

  // The server record is never driven, and in particular never shut down, by a host
  // request, the worker or shutdown while a stream owner exists.
  lemma ServerHasOneDriver(steps: seq<HostStep>)
    requires RunHost(steps).Some?
    ensures var h := RunHost(steps).value;
      DrivesServer(h.api.holder) ==> h.stream.owner == NoOwner && h.stream.word == []
  {
    HostRunKeeps(steps);
  }

  // CLOSED is emitted only when every accepted session is over: its word is complete, so
  // its terminal event was published and its callback has returned. Until then the worker
  // waits only for an owner that was told to stop; so does shutdown.
  lemma ClosedAfterTerminal(steps: seq<HostStep>)
    requires RunHost(steps).Some?
    ensures var h := RunHost(steps).value;
      && (h.api.holder == Cleaning(EmitClosed) || h.api.holder == Cleaning(ClosedCallback) ==>
            && !h.stream.flags.running && h.stream.word == []
            && (forall id :: 0 <= id < |h.stream.past| ==> Complete(id, h.stream.past[id])))
      && (h.api.holder == Cleaning(AwaitOwner) || h.api.holder == ShuttingDown(AwaitStop) ==>
            h.stream.flags.running ==> StopAsked in h.stream.word)
  {
    HostRunKeeps(steps);
    MarkedMeans(RunHost(steps).value.stream.word, StopAsked);
  }

  lemma PhaseStep(log: seq<Note>, j: nat)
    requires j < |log|
    ensures PhaseOf(log[..j + 1]) == PhaseAfter(PhaseOf(log[..j]), log[j])
  {
    assert log[..j + 1][..j] == log[..j];
  }

  lemma {:induction false} PendingStays(log: seq<Note>, i: nat, j: nat)
    requires LawfulLog(log) && i < j <= |log| && log[i] == DisconnectAccepted
    requires forall k :: i <= k < j ==> log[k] != ClosedReturned
    ensures PhaseOf(log[..j]) != Quiet
    decreases j - i
  {
    PhaseStep(log, j - 1);
    if i + 1 < j {
      PendingStays(log, i, j - 1);
      LawfulAt(log, j - 1);
    }
  }

  // From an accepted disconnect until its CLOSED callback has returned, no connect, pair,
  // applications, start or stop request is admitted, and no second disconnect accepted.
  lemma NothingAdmittedWhilePending(steps: seq<HostStep>, i: nat, j: nat)
    requires RunHost(steps).Some?
    requires i < j < |RunHost(steps).value.api.log|
    requires RunHost(steps).value.api.log[i] == DisconnectAccepted
    requires ClosedReturned !in RunHost(steps).value.api.log[i..j]
    ensures var n := RunHost(steps).value.api.log[j]; n == ClosedEmitted || n == ClosedReturned
  {
    HostRunKeeps(steps);
    var log := RunHost(steps).value.api.log;
    assert forall k :: i <= k < j ==> log[i..j][k - i] == log[k];
    PendingStays(log, i, j);
    LawfulAt(log, j);
  }

  function Times(log: seq<Note>, n: Note): nat {
    if log == [] then 0 else Times(log[..|log| - 1], n) + if log[|log| - 1] == n then 1 else 0
  }

  lemma {:induction false} LawfulTimes(log: seq<Note>)
    requires LawfulLog(log)
    ensures var p := PhaseOf(log);
      && Times(log, DisconnectAccepted) == Times(log, ClosedEmitted) + (if p == Pending then 1 else 0)
      && Times(log, ClosedEmitted) == Times(log, ClosedReturned) + (if p == Closing then 1 else 0)
  {
    if log != [] {
      LawfulTimes(log[..|log| - 1]);
    }
  }

  // CLOSED is emitted exactly once for each accepted disconnect: never more often, and
  // as often once no disconnect is open.
  lemma ClosedOncePerDisconnect(steps: seq<HostStep>)
    requires RunHost(steps).Some?
    ensures var a := RunHost(steps).value.api;
      && Times(a.log, ClosedEmitted) <= Times(a.log, DisconnectAccepted) <= Times(a.log, ClosedEmitted) + 1
      && (!a.disconnectPending ==> Times(a.log, DisconnectAccepted) == Times(a.log, ClosedReturned))
  {
    HostRunKeeps(steps);
    LawfulTimes(RunHost(steps).value.api.log);
  }
}
