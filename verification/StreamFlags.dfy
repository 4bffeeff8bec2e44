// The flags of src/moonlight/stream_session.cpp that `s_stream_mutex` protects,
// and the critical sections that read and write them.
//
// Each critical section is given twice: as a function on the value `Flags`, which
// the transition system in StreamSession composes, and as a method of the class
// `StreamControl`, which updates the fields in place like the source does.
module StreamFlags {
  import opened Options

  // `callback` names the session whose callback is registered, if it has one.
  datatype Flags = Flags(
    running: bool,
    stopRequested: bool,
    cancelRequested: bool,
    terminationResult: int,
    commonStarting: bool,
    interruptSent: bool,
    started: bool,
    callback: Option<nat>)

  const INITIAL := Flags(false, false, false, 0, false, false, false, None)

  // Results of moonlight_stream_start and of a cancelled setup.
  const ALREADY_RUNNING := -2
  const CANCELLED := -7

  function Admit(callback: Option<nat>): Flags {
    Flags(true, false, false, 0, false, false, false, callback)
  }

  // The owner thread could not be created: the reservation is given back.
  function Abandon(f: Flags): Flags {
    f.(callback := None, running := false)
  }

  predicate InterruptDue(f: Flags) {
    f.commonStarting && f.cancelRequested && !f.started && !f.interruptSent
  }

  function Interrupt(f: Flags): Flags {
    f.(interruptSent := f.interruptSent || InterruptDue(f))
  }

  function AskStop(f: Flags): Flags {
    f.(cancelRequested := f.cancelRequested || f.running, stopRequested := f.stopRequested || f.running)
  }

  function Terminate(f: Flags, result: int): Flags {
    f.(terminationResult := if f.running then result else f.terminationResult,
       stopRequested := f.stopRequested || f.running)
  }

  function Publish(f: Flags): Flags {
    f.(commonStarting := true)
  }

  function Ready(f: Flags): Flags {
    f.(commonStarting := false, started := f.started || !f.cancelRequested)
  }

  predicate StartupCancelled(f: Flags) {
    f.interruptSent && f.cancelRequested && !f.started
  }

  // What finish_common_startup returns.
  function StartupOutcome(f: Flags, result: int): int {
    if StartupCancelled(f) then CANCELLED else result
  }

  function FinishStartup(f: Flags): Flags {
    f.(commonStarting := false, interruptSent := false)
  }

  function BeginFinish(f: Flags): Flags {
    f.(started := false)
  }

  function Release(f: Flags): Flags {
    f.(stopRequested := false, cancelRequested := false, running := false)
  }

  class StreamControl {
    var running: bool
    var stopRequested: bool
    var cancelRequested: bool
    var terminationResult: int
    var commonStarting: bool
    var interruptSent: bool
    var started: bool
    var callback: Option<nat>

    function View(): Flags
      reads this
    {
      Flags(running, stopRequested, cancelRequested, terminationResult,
            commonStarting, interruptSent, started, callback)
    }

    constructor ()
      ensures View() == INITIAL
    {
      running, stopRequested, cancelRequested := false, false, false;
      terminationResult := 0;
      commonStarting, interruptSent, started := false, false, false;
      callback := None;
    }

    // moonlight_stream_start, admission
    method TryAdmit(callback: Option<nat>) returns (result: int)
      modifies this
      ensures old(running) ==> result == ALREADY_RUNNING && View() == old(View())
      ensures !old(running) ==> result == 0 && View() == Admit(callback)
      ensures !old(running) ==> View() == INITIAL.(running := true, callback := callback)
    {
      if running {
        return ALREADY_RUNNING;
      }
      running := true;
      stopRequested := false;
      cancelRequested := false;
      terminationResult := 0;
      commonStarting := false;
      interruptSent := false;
      this.callback := callback;
      started := false;
      return 0;
    }

    // moonlight_stream_start, after pthread_create failed
    method GiveBack()
      modifies this
      ensures View() == Abandon(old(View()))
      ensures !running && callback == None
    {
      callback := None;
      running := false;
    }

    // interrupt_common_startup_locked; `sent` says LiInterruptConnection was called
    method InterruptLocked() returns (sent: bool)
      modifies this
      ensures sent == InterruptDue(old(View()))
      ensures View() == Interrupt(old(View()))
      ensures sent <==> old(commonStarting && cancelRequested && !started && !interruptSent)
      ensures interruptSent == (old(interruptSent) || sent)
    {
      sent := false;
      if commonStarting && cancelRequested && !started && !interruptSent {
        sent := true;
        interruptSent := true;
      }
    }

    // moonlight_stream_stop
    method RequestStop() returns (sent: bool)
      modifies this
      ensures View() == if old(running) then Interrupt(AskStop(old(View()))) else old(View())
      ensures sent == (old(running) && InterruptDue(AskStop(old(View()))))
      ensures old(running) ==> running && cancelRequested && stopRequested
    {
      if !running {
        return false;
      }
      cancelRequested := true;
      stopRequested := true;
      sent := InterruptLocked();
    }

    // publish_common_startup
    method PublishStartup() returns (sent: bool)
      modifies this
      ensures View() == Interrupt(Publish(old(View())))
      ensures sent == InterruptDue(Publish(old(View())))
      ensures commonStarting
    {
      commonStarting := true;
      sent := InterruptLocked();
    }

    // on_connection_started, up to the unlock
    method ConnectionStarted() returns (cancelled: bool)
      modifies this
      ensures cancelled == old(cancelRequested)
      ensures View() == Ready(old(View()))
      ensures !commonStarting && started == (old(started) || !cancelled)
    {
      commonStarting := false;
      cancelled := cancelRequested;
      if !cancelled {
        started := true;
      }
    }

    // on_connection_terminated
    method ConnectionTerminated(result: int)
      modifies this
      ensures View() == Terminate(old(View()), result)
      ensures old(running) ==> terminationResult == result && stopRequested
      ensures !old(running) ==> View() == old(View())
    {
      if running {
        terminationResult := result;
        stopRequested := true;
      }
    }

    // finish_common_startup: the result it returns, and whether the owner has to
    // stop a transport that came up in spite of the interrupt
    method FinishCommonStartup(result: int) returns (outcome: int, stopTransport: bool)
      modifies this
      ensures View() == FinishStartup(old(View()))
      ensures outcome == StartupOutcome(old(View()), result)
      ensures stopTransport == (StartupCancelled(old(View())) && result == 0)
      ensures !commonStarting && !interruptSent
    {
      commonStarting := false;
      var cancelled := interruptSent && cancelRequested && !started;
      interruptSent := false;
      if cancelled {
        return CANCELLED, result == 0;
      }
      return result, false;
    }

    // finish_stream_worker, before and after the callback
    method BeginFinishWorker() returns (registered: Option<nat>)
      modifies this
      ensures registered == old(callback)
      ensures View() == BeginFinish(old(View())) && !started
    {
      registered := callback;
      started := false;
    }

    method EndFinishWorker()
      modifies this
      ensures View() == Release(old(View()))
      ensures !running && !stopRequested && !cancelRequested
    {
      stopRequested := false;
      cancelRequested := false;
      running := false;
    }
  }
}
