// How a foreground operation is completed: src/services/connection_service.cpp together
// with QueueEvent and ProcessEventTask of src/app/moonlight_app.cpp, as a transition
// system over the worker's calls, the main thread's stages and other threads' events.
//
// Assumed of a worker's backend call: it emits at most one event that completes its
// operation, before it returns, with the result that it returns; and no other thread
// emits events of these kinds.
module Completion {
  import opened CStrings
  import opened Options
  import opened EventQueue
  import opened ConnectionService

  datatype Worker = Absent | Running | Stored

  // What became of the completing event of the current worker.
  datatype Emission = NotEmitted | InQueue | Lost

  // Where the main thread is: about to enqueue a job; or in ProcessEventTask with an
  // event, before PrepareCompletion and after it. `queued` says that it was peeked.
  datatype Stage =
    | Free
    | Starting
    | Holding(event: Event, queued: bool)
    | Released(event: Event, queued: bool)

  // Operation number `id` was completed by `event`; `emission` is the fate of the event
  // that its own worker emitted.
  datatype Completed = Completed(id: nat, operation: Operation, event: Event, queued: bool, emission: Emission,
                                 host: string)

  // The last seven fields are history: the number of operations begun, the host of the
  // current one, the fate and the result of its event, the results recorded for jobs, the
  // jobs completed and the events dispatched.
  datatype State = State(
    service: Service, queue: Queue, listening: bool, worker: Worker, stage: Stage,
    current: nat, host: string, emission: Emission, returned: Option<int>,
    recorded: map<nat, int>, completed: seq<Completed>, dispatched: seq<Event>)

  const BOOT := State(IDLE, EventQueue.EMPTY, false, Absent, Free, 0, "", NotEmitted, None, map[], [], [])

  datatype Step =
    | BeginOp(operation: Operation, dialog: int, host: string)
    | Started
    | NotStarted
    | Emit(event: Event)
    | Store(result: int)
    | Publish
    | Other(event: Event)
    | Listen(on: bool)
    | Select
    | PrepareEvent
    | Dispatch
    | Error
    | ShowDialog
    | DialogFails
    | CloseDialog

  // An event that completes a worker's operation.
  predicate IsTerminal(kind: Kind) {
    Completes(Connect, kind) || Completes(Applications, kind)
  }

  predicate Can(s: State, step: Step) {
    match step
    case BeginOp(_, _, _) => s.stage.Free?
    case Started => s.stage.Starting?
    case NotStarted => s.stage.Starting?
    case Emit(e) =>
      && s.worker.Running? && s.emission.NotEmitted?
      && Completes(s.service.operation, e.kind) && Reports(s.service.operation, e)
    case Store(result) => s.worker.Running? && (s.returned.Some? ==> s.returned.value == result)
    case Publish => s.worker.Stored?
    case Other(e) => !IsTerminal(e.kind)
    case Listen(_) => true
    case Select => s.stage.Free?
    case PrepareEvent => s.stage.Holding?
    case Dispatch => s.stage.Released?
    case Error => s.stage.Free?
    case ShowDialog => s.stage.Free? && s.service.errorPending && !s.service.progress && !s.service.errorOpen
    case DialogFails => s.stage.Free? && s.service.errorPending && !s.service.progress && !s.service.errorOpen
    case CloseDialog => s.stage.Free? && s.service.errorOpen
  }

  function BeginOperation(s: State, operation: Operation, dialog: int, host: string): State {
    if BeginResult(s.service, operation, dialog) != 0 then s.(service := Begin(s.service, operation, dialog))
    else s.(service := KeepAddress(Begin(s.service, operation, dialog), host), stage := Starting,
            current := s.current + 1, host := host, emission := NotEmitted, returned := None)
  }

  function QueueEvent(s: State, e: Event): State {
    if s.listening then s.(queue := Push(s.queue, e)) else s
  }

  function EmitEvent(s: State, e: Event): State {
    QueueEvent(s, e).(emission := if s.listening && Fits(s.queue, e) then InQueue else Lost, returned := Some(e.result))
  }

  // The first critical section of a pass of ProcessEventTask
  function SelectEvent(s: State): State {
    var queue := Peek(s.queue);
    if queue.held.Some? then s.(queue := queue, stage := Holding(queue.held.value.event, true))
    else if JobEvent(s.service).Some? then s.(queue := queue, stage := Holding(JobEvent(s.service).value, false))
    else s
  }

  // PrepareCompletion, called by ProcessEventTask
  function PrepareHeld(s: State): State
    requires s.stage.Holding?
  {
    var e := s.stage.event;
    if !Prepared(s.service, e) then s.(stage := Free)
    else
      s.(service := Prepare(s.service, e), stage := Released(e, s.stage.queued),
         completed := if IsJob(s.service.operation) && Completes(s.service.operation, e.kind)
                      then s.completed + [Completed(s.current, s.service.operation, e, s.stage.queued, s.emission,
                                                    s.host)]
                      else s.completed)
  }

  // The acknowledgement and the callback
  function DispatchEvent(s: State): State
    requires s.stage.Released?
  {
    s.(queue := if s.stage.queued then Acknowledge(s.queue) else s.queue, stage := Free,
       dispatched := s.dispatched + [s.stage.event])
  }

  function Next(s: State, step: Step): State
    requires Can(s, step)
  {
    match step
    case BeginOp(operation, dialog, host) => BeginOperation(s, operation, dialog, host)
    case Started => s.(stage := Free, worker := if IsJob(s.service.operation) then Running else s.worker)
    case NotStarted => s.(stage := Free, service := FinishUnstarted(s.service))
    case Emit(e) => EmitEvent(s, e)
    case Store(result) => s.(worker := Stored, service := s.service.(result := result))
    case Publish =>
      s.(worker := Absent, service := s.service.(done := true), recorded := s.recorded[s.current := s.service.result])
    case Other(e) => QueueEvent(s, e)
    case Listen(on) => s.(listening := on)
    case Select => SelectEvent(s)
    case PrepareEvent => PrepareHeld(s)
    case Dispatch => DispatchEvent(s)
    case Error => s.(service := ShowError(s.service))
    case ShowDialog => s.(service := s.service.(errorPending := false, errorOpen := true))
    case DialogFails =>
      s.(service := s.service.(errorPending := false, confirmApplication := 0, confirmRunning := 0))
    case CloseDialog => s.(service := s.service.(errorOpen := false, confirmApplication := 0, confirmRunning := 0))
  }

  function Run(steps: seq<Step>): Option<State> {
    if steps == [] then Some(BOOT)
    else
      var before := Run(steps[..|steps| - 1]);
      if before.Some? && Can(before.value, steps[|steps| - 1])
      then Some(Next(before.value, steps[|steps| - 1]))
      else None
  }

  /* ---------- Completing events in the queue ---------- */

  function Terminals(c: seq<Queued>): seq<Event> {
    if c == [] then []
    else if IsTerminal(c[0].event.kind) then [c[0].event] + Terminals(c[1..]) else Terminals(c[1..])
  }

  function TerminalEvents(c: seq<Event>): seq<Event> {
    if c == [] then []
    else if IsTerminal(c[|c| - 1].kind) then TerminalEvents(c[..|c| - 1]) + [c[|c| - 1]]
    else TerminalEvents(c[..|c| - 1])
  }

  lemma {:induction false} TerminalsAppend(c: seq<Queued>, x: Queued)
    ensures Terminals(c + [x]) == Terminals(c) + if IsTerminal(x.event.kind) then [x.event] else []
  {
    if c == [] {
      assert [] + [x] == [x];
    } else {
      assert (c + [x])[1..] == c[1..] + [x];
      TerminalsAppend(c[1..], x);
    }
  }

  lemma {:induction false} TerminalsWithout(c: seq<Queued>, k: int)
    requires k != ORDERED
    ensures Terminals(Without(c, k)) == Terminals(c)
  {
    if c != [] {
      TerminalsWithout(c[1..], k);
      if ClassOf(c[0]) != k {
        assert Without(c, k)[0] == c[0] && Without(c, k)[1..] == Without(c[1..], k);
      }
    }
  }

  lemma TerminalsPush(q: Queue, e: Event)
    ensures Terminals(Push(q, e).waiting) ==
            Terminals(q.waiting) + if Fits(q, e) && IsTerminal(e.kind) then [Clip(e)] else []
  {
    var k, x := SnapshotIndex(e.kind), Queued(Clip(e), q.accepted + 1);
    if k == ORDERED {
      TerminalsAppend(q.waiting, x);
    } else {
      TerminalsWithout(q.waiting, k);
      TerminalsAppend(Without(q.waiting, k), x);
    }
  }

  // The completing events that were accepted but not yet prepared, the held one first.
  function Backlog(s: State): seq<Event> {
    (if s.queue.held.Some? && !(s.stage.Released? && s.stage.queued) && IsTerminal(s.queue.held.value.event.kind)
     then [s.queue.held.value.event] else [])
    + Terminals(s.queue.waiting)
  }

  /* ---------- The invariant ---------- */

  // A worker belongs to the current operation until it has published its result.
  predicate Ownership(s: State) {
    && (!s.worker.Absent? ==> IsJob(s.service.operation) && !s.service.done && !s.stage.Starting?)
    && (s.stage.Starting? ==> !s.service.operation.NoOperation? && !s.service.done && s.emission.NotEmitted?)
    && (IsJob(s.service.operation) && s.worker.Absent? && !s.stage.Starting? ==> s.service.done)
    && (s.emission.NotEmitted? <==> s.returned.None?)
    && ((s.worker.Stored? || (s.service.done && IsJob(s.service.operation))) && s.returned.Some? ==>
          s.returned.value == s.service.result)
  }

  // The event that the main thread works on is the held one, or is made up because the
  // worker's own event is not in the queue.
  predicate Staged(s: State) {
    match s.stage
    case Free => true
    case Starting => true
    case Holding(e, true) => s.queue.held.Some? && s.queue.held.value.event == e
    case Holding(e, false) => JobEvent(s.service) == Some(e) && !s.emission.InQueue?
    case Released(e, queued) => queued ==> s.queue.held.Some? && s.queue.held.value.event == e
  }

  // At most one completing event is in the queue: the one of the current worker.
  predicate OneTerminal(s: State) {
    if IsJob(s.service.operation) && s.emission.InQueue?
    then |Backlog(s)| == 1 && Mine(s, Backlog(s)[0]) else Backlog(s) == []
  }

  predicate Mine(s: State, e: Event) {
    && Completes(s.service.operation, e.kind) && Reports(s.service.operation, e)
    && s.returned == Some(e.result)
  }

  // Operations are numbered; results are recorded for job operations.
  ghost predicate Numbered(s: State) {
    && (forall i :: i in s.recorded ==> i <= s.current)
    && (s.service.done && IsJob(s.service.operation) ==>
          s.current in s.recorded && s.recorded[s.current] == s.service.result)
    && (!s.worker.Absent? || s.stage.Starting? ==> s.current !in s.recorded)
  }

  // A connect keeps its host's address, as long as it fits.
  predicate AddressKept(s: State) {
    s.service.operation.Connect? ==> s.service.address == Truncate(s.host)
  }

  // Each completion is for an operation of its own, whose worker had returned, and tells
  // that worker's result; it was made up exactly when the worker's event was not queued,
  // and then tells the address of the operation's host.
  predicate Sound(c: Completed, recorded: map<nat, int>) {
    && IsJob(c.operation) && Completes(c.operation, c.event.kind) && Reports(c.operation, c.event)
    && c.id in recorded && recorded[c.id] == c.event.result
    && (c.queued <==> c.emission.InQueue?)
    && (!c.queued ==> c.event.address == if c.operation.Connect? then Some(Truncate(c.host)) else None)
  }

  ghost predicate Once(s: State) {
    && (forall i :: 0 <= i < |s.completed| ==> Sound(s.completed[i], s.recorded) && s.completed[i].id <= s.current)
    && (forall i, j :: 0 <= i < j < |s.completed| ==> s.completed[i].id < s.completed[j].id)
    && (IsJob(s.service.operation) || s.stage.Starting? ==>
          forall i :: 0 <= i < |s.completed| ==> s.completed[i].id < s.current)
  }

  ghost predicate IsCompleted(s: State, id: nat) {
    exists i :: 0 <= i < |s.completed| && s.completed[i].id == id
  }

  // No recorded result is forgotten.
  ghost predicate Resolved(s: State) {
    forall id :: id in s.recorded ==>
      IsCompleted(s, id) || (id == s.current && s.service.done && IsJob(s.service.operation))
  }

  function EventsOf(c: seq<Completed>): seq<Event> {
    if c == [] then [] else EventsOf(c[..|c| - 1]) + [c[|c| - 1].event]
  }

  // The completing events that were dispatched are those of the completions.
  predicate Dispatched(s: State) {
    TerminalEvents(s.dispatched)
    + (if s.stage.Released? && IsTerminal(s.stage.event.kind) then [s.stage.event] else []) == EventsOf(s.completed)
  }

  ghost predicate Inv(s: State) {
    && Owned(s.service) && AddressKept(s)
    && Ownership(s) && Staged(s) && OneTerminal(s) && Numbered(s) && Once(s) && Resolved(s) && Dispatched(s)
  }

  lemma OwnedKept(s: State, step: Step)
    requires Owned(s.service) && Can(s, step)
    ensures Owned(Next(s, step).service)
  {
    match step {
      case BeginOp(operation, dialog, _) => BeginOwned(s.service, operation, dialog);
      case PrepareEvent => PrepareOwned(s.service, s.stage.event);
      case _ =>
    }
  }

  lemma AddressStays(s: State, step: Step)
    requires AddressKept(s) && Can(s, step)
    ensures AddressKept(Next(s, step))
  {
  }

  lemma OwnershipKept(s: State, step: Step)
    requires Ownership(s) && Staged(s) && Can(s, step)
    ensures Ownership(Next(s, step))
  {
  }

  lemma TerminalIsMine(s: State)
    requires Staged(s) && OneTerminal(s) && s.stage.Holding? && IsTerminal(s.stage.event.kind)
    ensures IsJob(s.service.operation) && Completes(s.service.operation, s.stage.event.kind)
    ensures Reports(s.service.operation, s.stage.event)
    ensures s.stage.queued <==> s.emission.InQueue?
    ensures s.stage.queued ==> s.returned == Some(s.stage.event.result) && Terminals(s.queue.waiting) == []
    ensures !s.stage.queued ==> s.stage.event.result == s.service.result && JobEvent(s.service) == Some(s.stage.event)
  {
    if s.stage.queued {
      assert Backlog(s)[0] == s.stage.event;
    } else {
      JobEventCompletes(s.service);
    }
  }

  lemma StagedKept(s: State, step: Step)
    requires Ownership(s) && Staged(s) && OneTerminal(s) && Can(s, step)
    ensures Staged(Next(s, step))
  {
    if step.Emit? {
      TerminalsPush(s.queue, step.event);
    }
  }

  lemma PushKeepsOne(s: State, step: Step)
    requires Ownership(s) && OneTerminal(s) && Can(s, step) && (step.Emit? || step.Other?)
    ensures OneTerminal(Next(s, step))
  {
    TerminalsPush(s.queue, step.event);
    var t := Next(s, step);
    assert t.queue.held == s.queue.held;
    if step.Emit? && t.emission.InQueue? {
      assert Backlog(t) == [Clip(step.event)];
    } else {
      assert Backlog(t) == Backlog(s);
    }
  }

  lemma SelectKeepsOne(s: State)
    requires Staged(s) && OneTerminal(s) && Can(s, Select)
    ensures OneTerminal(Next(s, Select))
  {
    assert Backlog(Next(s, Select)) == Backlog(s);
  }

  lemma PrepareKeepsOne(s: State)
    requires Staged(s) && OneTerminal(s) && Can(s, PrepareEvent)
    ensures OneTerminal(Next(s, PrepareEvent))
  {
    if IsTerminal(s.stage.event.kind) {
      TerminalIsMine(s);
    }
  }

  lemma DispatchKeepsOne(s: State)
    requires Staged(s) && OneTerminal(s) && Can(s, Dispatch)
    ensures OneTerminal(Next(s, Dispatch))
  {
    assert Backlog(Next(s, Dispatch)) == Backlog(s);
  }

  lemma OneTerminalKept(s: State, step: Step)
    requires Ownership(s) && Staged(s) && OneTerminal(s) && Can(s, step)
    ensures OneTerminal(Next(s, step))
  {
    if step.Emit? || step.Other? {
      PushKeepsOne(s, step);
    } else if step.Select? {
      SelectKeepsOne(s);
    } else if step.PrepareEvent? {
      PrepareKeepsOne(s);
    } else if step.Dispatch? {
      DispatchKeepsOne(s);
    } else {
      assert Backlog(Next(s, step)) == Backlog(s);
    }
  }

  lemma NumberedKept(s: State, step: Step)
    requires Ownership(s) && Numbered(s) && Can(s, step)
    ensures Numbered(Next(s, step))
  {
  }

  function HeldCompletion(s: State): Completed
    requires s.stage.Holding?
  {
    Completed(s.current, s.service.operation, s.stage.event, s.stage.queued, s.emission, s.host)
  }

  lemma PreparedIsSound(s: State)
    requires Ownership(s) && Staged(s) && OneTerminal(s) && Numbered(s) && AddressKept(s)
    requires s.stage.Holding? && IsTerminal(s.stage.event.kind) && Prepared(s.service, s.stage.event)
    ensures Sound(HeldCompletion(s), s.recorded)
  {
    TerminalIsMine(s);
    if !s.stage.queued {
      JobEventCompletes(s.service);
    }
  }

  lemma OnceMore(s: State, t: State, c: Completed)
    requires Once(s) && IsJob(s.service.operation) && Sound(c, s.recorded) && c.id == s.current
    requires t.completed == s.completed + [c] && t.recorded == s.recorded && t.current == s.current
    requires !IsJob(t.service.operation) && !t.stage.Starting?
    ensures Once(t)
  {
  }

  lemma PrepareKeepsOnce(s: State)
    requires Ownership(s) && Staged(s) && OneTerminal(s) && Numbered(s) && Once(s) && AddressKept(s)
    requires Can(s, PrepareEvent)
    ensures Once(Next(s, PrepareEvent))
  {
    if IsTerminal(s.stage.event.kind) && Prepared(s.service, s.stage.event) {
      PreparedIsSound(s);
      TerminalIsMine(s);
      OnceMore(s, PrepareHeld(s), HeldCompletion(s));
    } else {
      OtherEventKeepsOnce(s);
    }
  }

  lemma OtherEventKeepsOnce(s: State)
    requires Once(s) && s.stage.Holding?
    requires !IsTerminal(s.stage.event.kind) || !Prepared(s.service, s.stage.event)
    ensures Once(PrepareHeld(s))
  {
    assert PrepareHeld(s).completed == s.completed;
  }

  lemma PublishKeepsOnce(s: State)
    requires Ownership(s) && Numbered(s) && Once(s) && Can(s, Publish)
    ensures Once(Next(s, Publish))
  {
    var t := Next(s, Publish);
    forall i | 0 <= i < |s.completed|
      ensures Sound(t.completed[i], t.recorded)
    {
      assert s.completed[i].id < s.current;
    }
  }

  // Other steps complete and record nothing.
  lemma OtherKeepsOnce(s: State, step: Step)
    requires Ownership(s) && Once(s) && Can(s, step) && !step.PrepareEvent? && !step.Publish?
    ensures Once(Next(s, step))
  {
    var t := Next(s, step);
    assert t.completed == s.completed && t.recorded == s.recorded && t.current >= s.current;
  }

  lemma OnceKept(s: State, step: Step)
    requires Ownership(s) && Staged(s) && OneTerminal(s) && Numbered(s) && Once(s) && AddressKept(s) && Can(s, step)
    ensures Once(Next(s, step))
  {
    if step.PrepareEvent? {
      PrepareKeepsOnce(s);
    } else if step.Publish? {
      PublishKeepsOnce(s);
    } else {
      OtherKeepsOnce(s, step);
    }
  }

  lemma ResolvedKept(s: State, step: Step)
    requires Ownership(s) && Numbered(s) && Resolved(s) && Can(s, step)
    ensures Resolved(Next(s, step))
  {
    var t := Next(s, step);
    forall id | id in t.recorded
      ensures IsCompleted(t, id) || (id == t.current && t.service.done && IsJob(t.service.operation))
    {
      if id in s.recorded && IsCompleted(s, id) {
        var i :| 0 <= i < |s.completed| && s.completed[i].id == id;
        assert t.completed[i].id == id;
      } else if |t.completed| > |s.completed| {
        assert t.completed[|s.completed|].id == s.current;
      }
    }
  }

  lemma PrepareKeepsDispatched(s: State)
    requires Staged(s) && OneTerminal(s) && Dispatched(s) && Can(s, PrepareEvent)
    ensures Dispatched(Next(s, PrepareEvent))
  {
    if IsTerminal(s.stage.event.kind) {
      TerminalIsMine(s);
    }
  }

  // Other steps complete and dispatch nothing.
  lemma OtherKeepsDispatched(s: State, step: Step)
    requires Ownership(s) && Dispatched(s) && Can(s, step) && !step.PrepareEvent? && !step.Dispatch?
    ensures Dispatched(Next(s, step))
  {
    var t := Next(s, step);
    assert t.dispatched == s.dispatched && t.completed == s.completed;
  }

  lemma DispatchedKept(s: State, step: Step)
    requires Ownership(s) && Staged(s) && OneTerminal(s) && Dispatched(s) && Can(s, step)
    ensures Dispatched(Next(s, step))
  {
    if step.PrepareEvent? {
      PrepareKeepsDispatched(s);
    } else if !step.Dispatch? {
      OtherKeepsDispatched(s, step);
    }
  }

  lemma StepKeeps(s: State, step: Step)
    requires Inv(s) && Can(s, step)
    ensures Inv(Next(s, step))
  {
    OwnedKept(s, step);
    AddressStays(s, step);
    OwnershipKept(s, step);
    StagedKept(s, step);
    OneTerminalKept(s, step);
    NumberedKept(s, step);
    OnceKept(s, step);
    ResolvedKept(s, step);
    DispatchedKept(s, step);
  }

  lemma {:induction false} RunKeeps(steps: seq<Step>)
    requires Run(steps).Some?
    ensures Inv(Run(steps).value)
  {
    if steps != [] {
      RunKeeps(steps[..|steps| - 1]);
      StepKeeps(Run(steps[..|steps| - 1]).value, steps[|steps| - 1]);
    }
  }

  /* ---------- The theorems ---------- */

  // In every run, the operations completed are distinct, each one's worker had recorded
  // the result that the completion tells, and the completing events that were dispatched
  // are exactly the completions, in order.
  lemma CompletedOnce(steps: seq<Step>, i: nat, j: nat)
    requires Run(steps).Some? && i < |Run(steps).value.completed| && j < |Run(steps).value.completed|
    ensures var s := Run(steps).value;
      && Sound(s.completed[i], s.recorded)
      && (s.completed[i].id == s.completed[j].id ==> i == j)
      && Dispatched(s)
  {
    RunKeeps(steps);
    var s := Run(steps).value;
    assert i < j ==> s.completed[i].id < s.completed[j].id;
    assert j < i ==> s.completed[j].id < s.completed[i].id;
  }

  // In every run the busy dialog is open exactly while an operation owns it, in particular
  // while its job is being started and until its worker's result is prepared.
  lemma {:induction false} DialogOwned(steps: seq<Step>)
    requires Run(steps).Some?
    ensures var s := Run(steps).value;
      && Owned(s.service)
      && (s.stage.Starting? || !s.worker.Absent? || (s.service.done && IsJob(s.service.operation)) ==>
            s.service.progress)
      && (s.service.progress ==> IsBusy(s.service))
  {
    RunKeeps(steps);
  }

  // A connect and a list have a worker, whose result is recorded and then told.
  lemma WorkersReturn(steps: seq<Step>, result: int)
    requires Run(steps).Some?
    ensures var s := Run(steps).value;
      && (s.stage.Starting? ==>
            (Next(s, Started).worker.Running? <==>
               s.service.operation.Connect? || s.service.operation.Applications?))
      && (s.worker.Running? && Can(s, Store(result)) ==>
            Can(Next(s, Store(result)), Publish) &&
            var t := Next(Next(s, Store(result)), Publish);
            && t.worker.Absent? && s.current in t.recorded && t.recorded[s.current] == result
            && JobEvent(t.service).Some? && JobEvent(t.service).value.result == result)
  {
    RunKeeps(steps);
  }

  // An error is shown at one place at a time, and a remote quit is asked for only there.
  predicate DialogFits(s: Service) {
    && !(s.errorPending && s.errorOpen)
    && (s.confirmApplication != 0 || s.confirmRunning != 0 ==> s.errorPending || s.errorOpen)
  }

  lemma DialogFitsKept(s: State, step: Step)
    requires Owned(s.service) && DialogFits(s.service) && Can(s, step)
    ensures DialogFits(Next(s, step).service)
  {
    if step.PrepareEvent? && Completes(s.service.operation, s.stage.event.kind) && Prepared(s.service, s.stage.event) {
      CompletionShows(s.service, s.stage.event);
    }
  }

  // In every run errors are shown one at a time. One that is pending is opened, unless that
  // fails, as soon as no busy dialog is open; when it is closed, nothing of it is left.
  lemma {:induction false} ErrorsAreShown(steps: seq<Step>)
    requires Run(steps).Some?
    ensures var s := Run(steps).value;
      && DialogFits(s.service)
      && (Can(s, Error) ==> Next(s, Error).service.errorPending || Next(s, Error).service.errorOpen)
      && (Can(s, ShowDialog) ==>
            Can(Next(s, ShowDialog), CloseDialog) &&
            Next(Next(s, ShowDialog), CloseDialog).service
            == s.service.(errorPending := false, confirmApplication := 0, confirmRunning := 0))
      && (Can(s, DialogFails) ==>
            Next(s, DialogFails).service
            == s.service.(errorPending := false, confirmApplication := 0, confirmRunning := 0))
      && (s.stage.Free? && s.service.errorPending && !s.service.progress <==> Can(s, ShowDialog))
  {
    if steps != [] {
      ErrorsAreShown(steps[..|steps| - 1]);
      RunKeeps(steps[..|steps| - 1]);
      DialogFitsKept(Run(steps[..|steps| - 1]).value, steps[|steps| - 1]);
    }
  }

  // A pass ends with nothing to do only when every recorded result was completed.
  lemma NothingLeft(steps: seq<Step>, id: nat)
    requires Run(steps).Some? && Run(steps).value.stage.Free? && Next(Run(steps).value, Select).stage.Free?
    requires id in Run(steps).value.recorded
    ensures IsCompleted(Run(steps).value, id)
  {
    RunKeeps(steps);
  }

  // A completion is held back only while the worker has not returned.
  lemma HeldBackOnlyWhileRunning(steps: seq<Step>)
    requires Run(steps).Some? && Run(steps).value.stage.Holding?
    ensures var s := Run(steps).value;
      Next(s, PrepareEvent).stage.Free? <==>
        IsTerminal(s.stage.event.kind) && IsJob(s.service.operation) && s.current !in s.recorded
  {
    RunKeeps(steps);
    var s := Run(steps).value;
    if IsTerminal(s.stage.event.kind) {
      TerminalIsMine(s);
    }
  }

  function Work(s: State): nat {
    |s.queue.waiting| + (if s.queue.held.Some? then 1 else 0) + (if JobEvent(s.service).Some? then 1 else 0)
  }

  // The rest of a turn, once an event is selected
  function Rest(held: State): State {
    if !held.stage.Holding? then held
    else
      var released := PrepareHeld(held);
      if released.stage.Free? then released else DispatchEvent(released)
  }

  // One turn of the loop of ProcessEventTask, with nothing else in between, and whether
  // it returns.
  function Turn(s: State): (t: State)
    requires s.stage.Free?
    ensures t.stage.Free?
  {
    Rest(SelectEvent(s))
  }

  predicate Returns(s: State)
    requires s.stage.Free?
  {
    SelectEvent(s).stage.Free? || PrepareHeld(SelectEvent(s)).stage.Free?
  }

  lemma TurnWorks(s: State)
    requires s.stage.Free? && !Returns(s)
    ensures Work(Turn(s)) < Work(s)
  {
    var held := SelectEvent(s);
    if !held.stage.queued {
      JobEventCompletes(s.service);
    }
  }

  lemma SelectKeeps(s: State)
    requires Inv(s) && s.stage.Free?
    ensures Inv(SelectEvent(s))
  {
    StepKeeps(s, Select);
  }

  lemma PrepareKeeps(s: State)
    requires Inv(s) && s.stage.Holding?
    ensures Inv(PrepareHeld(s)) && !PrepareHeld(s).stage.Holding? && !PrepareHeld(s).stage.Starting?
  {
    StepKeeps(s, PrepareEvent);
  }

  lemma DispatchKeeps(s: State)
    requires Inv(s) && s.stage.Released?
    ensures Inv(DispatchEvent(s))
  {
    StepKeeps(s, Dispatch);
  }

  lemma RestKeeps(held: State)
    requires Inv(held)
    ensures Inv(Rest(held))
  {
    if held.stage.Holding? {
      var released := PrepareHeld(held);
      PrepareKeeps(held);
      if released.stage.Released? {
        DispatchKeeps(released);
      }
    }
  }

  lemma TurnKeeps(s: State)
    requires Inv(s) && s.stage.Free?
    ensures Inv(Turn(s))
  {
    SelectKeeps(s);
    RestKeeps(SelectEvent(s));
  }

  lemma HeldCompletes(held: State)
    requires Inv(held) && held.stage.Holding? && held.service.done && IsJob(held.service.operation)
    ensures PrepareHeld(held).stage.Released? && held.completed <= PrepareHeld(held).completed
    ensures IsCompleted(PrepareHeld(held), held.current) || PrepareHeld(held).service == held.service
    ensures PrepareHeld(held).current == held.current
  {
    var released := PrepareHeld(held);
    if IsTerminal(held.stage.event.kind) {
      TerminalIsMine(held);
      assert released.completed[|held.completed|].id == held.current;
    }
  }

  lemma SameCompleted(s: State, t: State, id: nat)
    requires IsCompleted(s, id) && t.completed == s.completed
    ensures IsCompleted(t, id)
  {
    var i :| 0 <= i < |s.completed| && s.completed[i].id == id;
    assert t.completed[i].id == id;
  }

  // A turn with a recorded result outstanding completes it, or handles another event.
  lemma TurnCompletes(s: State)
    requires Inv(s) && s.stage.Free? && s.service.done && IsJob(s.service.operation)
    ensures !Returns(s) && s.completed <= Turn(s).completed
    ensures IsCompleted(Turn(s), s.current) ||
      (Turn(s).service == s.service && Turn(s).current == s.current)
  {
    var held := SelectEvent(s);
    SelectKeeps(s);
    HeldCompletes(held);
    if IsCompleted(PrepareHeld(held), s.current) {
      SameCompleted(PrepareHeld(held), Turn(s), s.current);
    }
  }

  // A pass of ProcessEventTask in which nothing else happens.
  function Pass(s: State): State
    requires s.stage.Free?
    decreases Work(s)
  {
    if Returns(s) then Turn(s)
    else
      TurnWorks(s);
      Pass(Turn(s))
  }

  // Once its worker has returned, an operation is completed by the next pass.
  lemma {:induction false} PassCompletes(s: State)
    requires Inv(s) && s.stage.Free? && s.service.done && IsJob(s.service.operation)
    ensures IsCompleted(Pass(s), s.current)
    decreases Work(s)
  {
    TurnCompletes(s);
    TurnWorks(s);
    TurnKeeps(s);
    if IsCompleted(Turn(s), s.current) {
      var i :| 0 <= i < |Turn(s).completed| && Turn(s).completed[i].id == s.current;
      PassKeepsCompleted(Turn(s));
      assert Pass(s).completed[i].id == s.current;
    } else {
      PassCompletes(Turn(s));
    }
  }

  lemma {:induction false} PassKeepsCompleted(s: State)
    requires s.stage.Free?
    ensures s.completed <= Pass(s).completed
    decreases Work(s)
  {
    if !Returns(s) {
      TurnWorks(s);
      PassKeepsCompleted(Turn(s));
    }
  }
}
