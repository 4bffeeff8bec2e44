// The host-control gate of src/moonlight/api.cpp over the stream session protocol:
// requests that only try the control mutex, the disconnect cleanup worker, shutdown,
// and the owner's callback on_stream_event, whose writes hold no lock.
//
// A request, the worker or shutdown advances in steps while it holds the control
// mutex, so `holder` is both the mutex and the program counter. Steps of the stream
// session, and each unlocked write of the callback, may come between any two of them.
module HostControl {
  import opened Options
  import opened StreamFlags
  import opened StreamSession

  datatype Connection = Disconnected | Ready | Paired | Streaming

  datatype ConnectAt = CheckHost | PrepareConnect | ReplaceServer | InitServer
  datatype PairAt = CheckPair | RunPair
  datatype AppsAt = CheckApps | RunApps
  datatype StartAt = CheckStart | MarkPending | AdmitSession | CreateOwner | UnmarkPending | RestoreState | SetPaired
  datatype DisconnectAt = CheckDisconnect | StopSession | MarkWorker | CreateWorker | PublishPending | Unlock
  datatype WorkerAt =
    | AwaitOwner | CheckServer | CloseServer | ResetState | EmitClosed | ClosedCallback
    | ClearRunning | ClearPending | LeaveWorker
  datatype ShutdownAt = StopOwner | AwaitStop | CheckLast | CloseLast | ResetAll

  datatype Holder =
    | Free
    | Connecting(c: ConnectAt)
    | PreparingPin
    | Pairing(p: PairAt)
    | Listing(l: AppsAt)
    | Starting(s: StartAt)
    | StoppingApp
    | Disconnecting(d: DisconnectAt)
    | Cleaning(w: WorkerAt)
    | ShuttingDown(x: ShutdownAt)

  datatype Request = ConnectRequest | PinRequest | PairRequest | AppsRequest | StartRequest | StopRequest

  datatype Note = Admitted(request: Request) | DisconnectAccepted | ClosedEmitted | ClosedReturned

  datatype Api = Api(
    holder: Holder,
    hasHost: bool,
    connection: Connection,
    initialized: bool,
    active: bool,
    pending: bool,
    disconnectPending: bool,
    workerRunning: bool,
    workerAlive: bool,
    written: nat,        // writes of the owner's running callback that are done
    log: seq<Note>)

  datatype Host = Host(api: Api, stream: System)

  const START := Host(Api(Free, false, Disconnected, false, false, false, false, false, false, 0, []), INIT)

  // `ok` and `paired` are the outcomes of calls whose code is not modelled.
  datatype HostStep =
    | TryRequest(request: Request)
    | TryDisconnect
    | WorkerLocks
    | ShutdownLocks
    | Advance(ok: bool, paired: bool)
    | OwnerWrites
    | StreamStep(step: Step)

  const WRITES := 4  // pending, active, connection state, emit

  function Entry(request: Request): Holder {
    match request
    case ConnectRequest => Connecting(CheckHost)
    case PinRequest => PreparingPin
    case PairRequest => Pairing(CheckPair)
    case AppsRequest => Listing(CheckApps)
    case StartRequest => Starting(CheckStart)
    case StopRequest => StoppingApp
  }

  // A step the stream session takes on its own: session admission and thread creation
  // belong to the start request, and the callback returns when its writes are done.
  predicate Own(a: Api, step: Step) {
    && !step.Start? && !step.CreateOk? && !step.CreateFails?
    && (step.CallbackReturns? ==> a.written == WRITES)
  }

  predicate Possible(h: Host, step: HostStep) {
    match step {
      case TryRequest(_) => h.api.holder == Free
      case TryDisconnect => h.api.holder == Free
      case WorkerLocks => h.api.holder == Free && h.api.workerAlive
      case ShutdownLocks => h.api.holder == Free
      case Advance(_, _) => h.api.holder != Free
      case OwnerWrites => h.stream.owner.InCallback? && h.api.written < WRITES
      case StreamStep(st) => Can(h.stream.owner, st) && Own(h.api, st)
    }
  }

  function Log(a: Api, n: Note): Api {
    a.(log := a.log + [n])
  }

  function AdvanceConnect(a: Api, at: ConnectAt, running: bool, ok: bool, paired: bool): Api {
    match at
    case CheckHost =>
      a.(holder := if !ok || a.disconnectPending || a.workerRunning || running then Free
                   else Connecting(PrepareConnect))
    case PrepareConnect =>
      a.(holder := if !ok then Free
                   else if a.initialized then Connecting(ReplaceServer) else Connecting(InitServer))
    case ReplaceServer => a.(initialized := false, holder := Connecting(InitServer))
    case InitServer =>
      if ok then a.(initialized := true, hasHost := true,
                    connection := if paired then Paired else Ready, holder := Free)
      else a.(connection := Disconnected, hasHost := false, holder := Free)
  }

  function AdvanceStart(a: Api, at: StartAt, running: bool, ok: bool): Api {
    match at
    case CheckStart =>
      a.(holder := if ok && a.hasHost && a.initialized && a.connection == Paired && !a.pending && !a.active
                   then Starting(MarkPending) else Free)
    case MarkPending => a.(pending := true, holder := Starting(AdmitSession))
    case AdmitSession => a.(holder := Starting(if running then UnmarkPending else CreateOwner))
    case CreateOwner => a.(holder := if ok then Free else Starting(UnmarkPending))
    case UnmarkPending => a.(pending := false, holder := Starting(RestoreState))
    case RestoreState => a.(holder := if a.active then Free else Starting(SetPaired))
    case SetPaired => a.(connection := Paired, holder := Free)
  }

  function AdvanceDisconnect(a: Api, at: DisconnectAt, ok: bool): Api {
    match at
    case CheckDisconnect =>
      a.(holder := if !a.hasHost || a.disconnectPending then Free else Disconnecting(StopSession))
    case StopSession => a.(holder := Disconnecting(MarkWorker))
    case MarkWorker =>
      if a.workerRunning then a.(holder := Free)
      else a.(workerRunning := true, holder := Disconnecting(CreateWorker))
    case CreateWorker =>
      if ok then a.(workerAlive := true, holder := Disconnecting(PublishPending))
      else a.(workerRunning := false, disconnectPending := false, holder := Free)
    case PublishPending =>
      Log(a, DisconnectAccepted).(disconnectPending := true, holder := Disconnecting(Unlock))
    case Unlock => a.(holder := Free)
  }

  function AdvanceWorker(a: Api, at: WorkerAt, running: bool): Api {
    match at
    case AwaitOwner => if running then a else a.(holder := Cleaning(CheckServer))
    case CheckServer => a.(holder := Cleaning(if a.initialized then CloseServer else ResetState))
    case CloseServer => a.(initialized := false, holder := Cleaning(ResetState))
    case ResetState =>
      a.(pending := false, active := false, connection := Disconnected, hasHost := false,
         holder := Cleaning(EmitClosed))
    case EmitClosed => Log(a, ClosedEmitted).(holder := Cleaning(ClosedCallback))
    case ClosedCallback => Log(a, ClosedReturned).(holder := Cleaning(ClearRunning))
    case ClearRunning => a.(workerRunning := false, holder := Cleaning(ClearPending))
    case ClearPending => a.(disconnectPending := false, holder := Cleaning(LeaveWorker))
    case LeaveWorker => a.(workerAlive := false, holder := Free)
  }

  function AdvanceShutdown(a: Api, at: ShutdownAt, running: bool): Api {
    match at
    case StopOwner => a.(holder := ShuttingDown(if a.active || a.pending || running then AwaitStop else CheckLast))
    case AwaitStop => if running then a else a.(holder := ShuttingDown(CheckLast))
    case CheckLast => a.(holder := ShuttingDown(if a.initialized then CloseLast else ResetAll))
    case CloseLast => a.(initialized := false, holder := ShuttingDown(ResetAll))
    case ResetAll =>
      a.(connection := Disconnected, hasHost := false, active := false, pending := false,
         disconnectPending := false, workerRunning := false, holder := Free)
  }

  // The requests that take at most two steps
  function AdvanceRequest(a: Api, running: bool, ok: bool, paired: bool): Api {
    var unpaired := a.hasHost && a.connection == Ready && a.initialized;
    var listable := a.hasHost && a.initialized && !a.disconnectPending && !a.pending && !running
                    && a.connection == Paired;
    var pairs := (a.holder.PreparingPin? && unpaired && paired)
                 || (a.holder == Pairing(RunPair) && ok && !a.disconnectPending);
    a.(connection := if pairs then Paired else a.connection,
       holder := if a.holder == Pairing(CheckPair) && ok && unpaired then Pairing(RunPair)
                 else if a.holder == Listing(CheckApps) && ok && listable then Listing(RunApps)
                 else Free)
  }

  predicate IsShort(h: Holder) {
    h.PreparingPin? || h.Pairing? || h.Listing? || h.StoppingApp?
  }

  function AdvanceHolder(a: Api, running: bool, ok: bool, paired: bool): Api {
    if a.holder.Free? then a
    else if a.holder.Connecting? then AdvanceConnect(a, a.holder.c, running, ok, paired)
    else if IsShort(a.holder) then AdvanceRequest(a, running, ok, paired)
    else if a.holder.Starting? then AdvanceStart(a, a.holder.s, running, ok)
    else if a.holder.Disconnecting? then AdvanceDisconnect(a, a.holder.d, ok)
    else if a.holder.Cleaning? then AdvanceWorker(a, a.holder.w, running)
    else AdvanceShutdown(a, a.holder.x, running)
  }

  // The stream step that the holder's next step takes with it.
  function StreamPart(a: Api, running: bool, ok: bool): Option<Step> {
    match a.holder
    case Starting(AdmitSession) => Some(Start(true))
    case Starting(CreateOwner) => Some(if ok then CreateOk else CreateFails)
    case StoppingApp => if a.hasHost && (a.active || a.pending) then Some(RequestStop) else None
    case Disconnecting(StopSession) => if a.active || a.pending || running then Some(RequestStop) else None
    case ShuttingDown(StopOwner) => if a.active || a.pending || running then Some(RequestStop) else None
    case _ => None
  }

  function OwnerWrite(a: Api, kind: Kind): Api {
    a.(pending := if a.written == 0 then false else a.pending,
       active := if a.written == 1 then kind == Started else a.active,
       connection := if a.written != 2 then a.connection else if kind == Started then Streaming else Paired,
       written := a.written + 1)
  }

  function NextApi(h: Host, step: HostStep): Api
    requires Possible(h, step)
  {
    var a := h.api;
    match step {
      case TryRequest(request) =>
        if a.disconnectPending then a else Log(a, Admitted(request)).(holder := Entry(request))
      case TryDisconnect => a.(holder := Disconnecting(CheckDisconnect))
      case WorkerLocks => a.(holder := Cleaning(AwaitOwner))
      case ShutdownLocks => if a.workerRunning then a else a.(holder := ShuttingDown(StopOwner))
      case Advance(ok, paired) => AdvanceHolder(a, h.stream.flags.running, ok, paired)
      case OwnerWrites => OwnerWrite(a, h.stream.owner.kind)
      case StreamStep(st) => if st == CallCallback then a.(written := 0) else a
    }
  }

  function StreamOf(h: Host, step: HostStep): Option<Step> {
    match step
    case Advance(ok, _) => StreamPart(h.api, h.stream.flags.running, ok)
    case StreamStep(st) => Some(st)
    case _ => None
  }

  function NextStream(s: System, step: Option<Step>): System {
    if step.Some? && Can(s.owner, step.value) then Do(s, step.value) else s
  }

  function Next(h: Host, step: HostStep): Host
    requires Possible(h, step)
  {
    Host(NextApi(h, step), NextStream(h.stream, StreamOf(h, step)))
  }

  function RunHost(steps: seq<HostStep>): Option<Host> {
    if steps == [] then Some(START)
    else
      var before := RunHost(steps[..|steps| - 1]);
      if before.Some? && Possible(before.value, steps[|steps| - 1])
      then Some(Next(before.value, steps[|steps| - 1]))
      else None
  }
}
