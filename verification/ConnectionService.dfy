// The foreground operation of src/services/connection_service.cpp: one operation at a
// time owns the busy dialog from BeginOperation until its completion is prepared.
//
// Each member function is given as a function on the value `Service`, which the
// transition system in Completion composes, and as a method that updates the fields.
module ConnectionService {
  import opened CStrings
  import opened Options
  import opened EventQueue

  const APP_CONFLICT := -8

  datatype Operation = NoOperation | Connect | Applications | Launch

  // `progress` says that the busy dialog is open; message texts are left out.
  datatype Service = Service(operation: Operation, progress: bool, errorPending: bool, errorOpen: bool,
                             confirmApplication: int, confirmRunning: int, done: bool, result: int,
                             address: string)

  const IDLE := Service(NoOperation, false, false, false, 0, 0, false, 0, "")

  // completes_operation
  predicate Completes(operation: Operation, kind: Kind) {
    match operation
    case Connect => kind.ConnectionReady? || kind.ConnectionFailed?
    case Applications => kind.ApplicationsReady? || kind.ApplicationsFailed?
    case Launch => kind.StreamStarted? || kind.StreamFailed? || kind.StreamStopped?
    case NoOperation => false
  }

  predicate IsJob(operation: Operation) {
    operation.Connect? || operation.Applications?
  }

  // Whether a worker's result is a success, for either kind of job.
  predicate Succeeds(operation: Operation, result: int) {
    if operation.Connect? then result == 0 else result >= 0
  }

  predicate IsBusy(s: Service) {
    !s.operation.NoOperation? || s.progress || s.errorOpen || s.errorPending
  }

  function ShowError(s: Service): Service {
    s.(errorPending := s.errorPending || !s.errorOpen)
  }

  // `dialog` is what opening the busy dialog returned.
  function Begin(s: Service, operation: Operation, dialog: int): Service {
    if operation.NoOperation? || IsBusy(s) then s
    else s.(operation := if dialog < 0 then NoOperation else operation, done := false, result := 0,
            progress := s.progress || dialog >= 0)
  }

  // The host's address, as Connect keeps it for a made-up event.
  function KeepAddress(s: Service, host: string): Service {
    if s.operation.Connect? then s.(address := Truncate(host)) else s
  }

  function BeginResult(s: Service, operation: Operation, dialog: int): int {
    if operation.NoOperation? || IsBusy(s) then -1 else if dialog < 0 then dialog else 0
  }

  function FinishUnstarted(s: Service): Service {
    var closed := s.(progress := false, operation := NoOperation);
    if s.operation.Connect? then ShowError(closed) else closed
  }

  function ConfirmQuit(s: Service, application: int, running: int): Service {
    if application <= 0 || running <= 0 || application == running || IsBusy(s) then ShowError(s)
    else ShowError(s).(confirmApplication := application, confirmRunning := running)
  }

  predicate Prepared(s: Service, e: Event) {
    !Completes(s.operation, e.kind) || s.operation.Launch? || s.done
  }

  function Prepare(s: Service, e: Event): Service {
    if !Completes(s.operation, e.kind) || !Prepared(s, e) then s
    else
      var free := s.(progress := false, operation := NoOperation);
      if e.kind.ConnectionFailed? then ShowError(free)
      else if !e.kind.StreamFailed? then free
      else if e.result == APP_CONFLICT && e.runningId > 0 && e.runningId != e.applicationId
      then ConfirmQuit(free, e.applicationId, e.runningId)
      else ShowError(free)
  }

  // The event made up for a finished worker.
  function JobEvent(s: Service): Option<Event> {
    if !IsJob(s.operation) || !s.done then None
    else
      var kind := if s.operation.Connect?
                  then if s.result == 0 then ConnectionReady else ConnectionFailed
                  else if s.result >= 0 then ApplicationsReady else ApplicationsFailed;
      Some(Event(kind, s.result, -1, -1, if s.operation.Connect? then Some(s.address) else None,
                 "", 0, "", 0, 0))
  }

  // The made-up event completes the operation, with the success of its worker.
  lemma JobEventCompletes(s: Service)
    requires JobEvent(s).Some?
    ensures (s.operation.Connect? || s.operation.Applications?) && s.done
    ensures JobEvent(s).value.hostId == JobEvent(s).value.applicationId == -1
    ensures Completes(s.operation, JobEvent(s).value.kind) && Prepared(s, JobEvent(s).value)
    ensures JobEvent(s).value.result == s.result
    ensures JobEvent(s).value.address == if s.operation.Connect? then Some(s.address) else None
    ensures Reports(s.operation, JobEvent(s).value)
  {
  }

  // The kind of a completion event says whether its result is a success.
  predicate Reports(operation: Operation, e: Event) {
    (e.kind.ConnectionReady? || e.kind.ApplicationsReady?) <==> Succeeds(operation, e.result)
  }

  // An operation keeps the service busy until it is completed or given up; the busy
  // dialog is never open without one.
  predicate Owned(s: Service) {
    s.progress <==> !s.operation.NoOperation?
  }

  lemma BeginOwned(s: Service, operation: Operation, dialog: int)
    requires Owned(s)
    ensures Owned(Begin(s, operation, dialog))
    ensures BeginResult(s, operation, dialog) == 0 <==>
      !operation.NoOperation? && !IsBusy(s) && dialog >= 0
    ensures BeginResult(s, operation, dialog) == 0 ==>
      Begin(s, operation, dialog).operation == operation && !Begin(s, operation, dialog).done
  {
  }

  lemma PrepareOwned(s: Service, e: Event)
    requires Owned(s)
    ensures Owned(Prepare(s, e))
    ensures Completes(s.operation, e.kind) && Prepared(s, e) <==> Prepare(s, e).operation != s.operation
  {
  }

  // The kinds of event that report a failure to the user; that of a list is shown elsewhere.
  predicate IsFailure(kind: Kind) {
    kind.ConnectionFailed? || kind.StreamFailed?
  }

  // An event that names another application as running
  predicate IsConflict(e: Event) {
    && e.kind.StreamFailed? && e.result == APP_CONFLICT
    && e.applicationId > 0 && e.runningId > 0 && e.applicationId != e.runningId
  }

  // A prepared completion shows an error exactly when it reports one, unless one is shown
  // already; it asks for a remote quit exactly when it names another application, and then
  // only if no error was shown.
  lemma CompletionShows(s: Service, e: Event)
    requires Completes(s.operation, e.kind) && Prepared(s, e)
    ensures var t := Prepare(s, e);
      && t.operation.NoOperation? && !t.progress && t.errorOpen == s.errorOpen
      && (t.errorPending <==> s.errorPending || (IsFailure(e.kind) && !s.errorOpen))
      && (if IsConflict(e) && !s.errorPending && !s.errorOpen
          then t.confirmApplication == e.applicationId && t.confirmRunning == e.runningId
          else t.confirmApplication == s.confirmApplication && t.confirmRunning == s.confirmRunning)
      && t.done == s.done && t.result == s.result && t.address == s.address
  {
  }

  // A remote quit is asked for only when a different application was found running.
  lemma ConfirmsOnlyConflicts(s: Service, e: Event)
    requires Owned(s) && Prepare(s, e).confirmApplication != s.confirmApplication
    ensures s.operation.Launch? && e.kind.StreamFailed? && e.result == APP_CONFLICT
    ensures Prepare(s, e).confirmApplication == e.applicationId > 0
    ensures Prepare(s, e).confirmRunning == e.runningId > 0 && e.runningId != e.applicationId
    ensures Prepare(s, e).errorPending && !IsBusy(s.(progress := false, operation := NoOperation))
  {
  }

  class ForegroundService {
    var operation: Operation
    var progress: bool
    var errorPending: bool
    var errorOpen: bool
    var confirmApplication: int
    var confirmRunning: int
    var workerDone: bool
    var workerResult: int
    var connectAddress: string

    ghost function View(): Service
      reads this
    {
      Service(operation, progress, errorPending, errorOpen, confirmApplication, confirmRunning,
              workerDone, workerResult, connectAddress)
    }

    constructor ()
      ensures View() == IDLE
    {
      operation, progress, errorPending, errorOpen := NoOperation, false, false, false;
      confirmApplication, confirmRunning, workerDone, workerResult := 0, 0, false, 0;
      connectAddress := "";
    }

    method Busy() returns (busy: bool)
      ensures busy <==> IsBusy(View())
    {
      busy := operation != NoOperation || progress || errorOpen || errorPending;
    }

    method BeginOperation(wanted: Operation, dialog: int) returns (result: int)
      modifies this
      ensures View() == Begin(old(View()), wanted, dialog)
      ensures result == BeginResult(old(View()), wanted, dialog)
      ensures result == 0 ==> operation == wanted && progress && !workerDone && workerResult == 0
    {
      var busy := Busy();
      if wanted == NoOperation || busy {
        return -1;
      }
      operation, workerDone, workerResult := wanted, false, 0;
      if dialog < 0 {
        operation := NoOperation;
        return dialog;
      }
      progress := true;
      result := 0;
    }

    method CloseWaitDialog()
      modifies `progress
      ensures !progress
    {
      if !progress {
        return;
      }
      progress := false;
    }

    method Show()
      modifies `errorPending
      ensures View() == ShowError(old(View()))
    {
      if errorPending || errorOpen {
        return;
      }
      errorPending := true;
    }

    method ConfirmQuitAndStart(application: int, running: int)
      modifies this
      ensures View() == ConfirmQuit(old(View()), application, running)
    {
      var busy := Busy();
      if application <= 0 || running <= 0 || application == running || busy {
        Show();
        return;
      }
      Show();
      confirmApplication, confirmRunning := application, running;
    }

    method FinishUnstartedOperation()
      modifies this
      ensures View() == FinishUnstarted(old(View()))
      ensures operation == NoOperation && !progress && (old(operation) == Connect ==> errorPending || errorOpen)
    {
      var finished := operation;
      CloseWaitDialog();
      operation := NoOperation;
      if finished == Connect {
        Show();
      }
    }

    method PrepareCompletion(event: Event) returns (ready: bool)
      modifies this
      ensures View() == Prepare(old(View()), event)
      ensures ready <==> Prepared(old(View()), event)
    {
      if !Completes(operation, event.kind) {
        return true;
      }
      if operation != Launch && !workerDone {
        return false;
      }
      CloseWaitDialog();
      var finished := operation;
      operation := NoOperation;
      if finished == Connect && event.kind == ConnectionFailed {
        Show();
      }
      if finished == Launch && event.kind == StreamFailed {
        if event.result == APP_CONFLICT && event.runningId > 0 && event.runningId != event.applicationId {
          ConfirmQuitAndStart(event.applicationId, event.runningId);
        } else {
          Show();
        }
      }
      ready := true;
    }

    // The two stores of RecordWorkerResult
    method RecordWorkerResult(result: int)
      modifies `workerResult, `workerDone
      ensures View() == old(View()).(result := result, done := true)
    {
      workerResult := result;
      workerDone := true;
    }

    method GetCompletedJobEvent() returns (event: Option<Event>)
      ensures event == JobEvent(View())
    {
      if (operation != Connect && operation != Applications) || !workerDone {
        return None;
      }
      var kind, address := NoEvent, None;
      if operation == Connect {
        kind := if workerResult == 0 then ConnectionReady else ConnectionFailed;
        address := Some(connectAddress);
      } else {
        kind := if workerResult >= 0 then ApplicationsReady else ApplicationsFailed;
      }
      event := Some(Event(kind, workerResult, -1, -1, address, "", 0, "", 0, 0));
    }
  }
}
