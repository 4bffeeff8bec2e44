// The stream session protocol of src/moonlight/stream_session.cpp: one owner thread
// per accepted session, stop requests and termination callbacks from any thread, and
// the callbacks of common-c (moonlight-common-c, the transport library).
//
// The model has one step for each critical section of `s_stream_mutex` and for each
// unlocked action of the owner, in any interleaving. What happens is recorded in
// `word`, one word per session; finished words move to `past`.
//
// Assumed of common-c: inside LiStartConnection the owner first runs any number of
// stage callbacks; `connectionStarted` runs at most once, after a stage callback and
// just before a zero return, and every zero return follows it; a nonzero return has
// unwound itself; `connectionTerminated` may come from any thread at any time.
module StreamSession {
  import opened Options
  import opened StreamFlags

  datatype Kind = Started | Stopped | Failed

  datatype Action =
    | Admission(withCallback: bool)
    | Abandoned
    | StopAsked
    | Terminated(result: int)
    | SetupFailed(result: int)
    | LiStart
    | Stage
    | Interrupted
    | Committed
    | LiReturn(result: int)
    | LiStop
    | InputStart
    | InputStop
    | ResultRead(result: int)
    | Emit(kind: Kind, result: int, session: nat)
    | Released

  type Word = seq<Action>

  /* ---------- The protocol one session has to follow ---------- */

  // What an observer of a session has seen so far.
  datatype Seen = Seen(
    admission: Option<bool>,
    stopAsked: bool,
    lost: Option<int>,
    setupFailed: Option<int>,
    liStart: bool,
    stage: bool,
    interrupted: bool,
    committed: bool,
    returned: Option<int>,
    liStop: bool,
    inputStart: bool,
    inputStop: bool,
    resultRead: Option<int>,
    startedOut: bool,
    terminal: Option<Kind>,
    closed: bool)

  const NOTHING :=
    Seen(None, false, None, None, false, false, false, false, None, false, false, false, None, false, None, false)

  // Field by field, which keeps what each action changes apart.
  function Observe(o: Seen, a: Action): Seen {
    Seen(
      if a.Admission? then Some(a.withCallback) else o.admission,
      o.stopAsked || a.StopAsked?,
      if a.Terminated? then Some(a.result) else o.lost,
      if a.SetupFailed? then Some(a.result) else o.setupFailed,
      o.liStart || a.LiStart?,
      o.stage || a.Stage?,
      o.interrupted || a.Interrupted?,
      o.committed || a.Committed?,
      if a.LiReturn? then Some(a.result) else o.returned,
      o.liStop || a.LiStop?,
      o.inputStart || a.InputStart?,
      o.inputStop || a.InputStop?,
      if a.ResultRead? then Some(a.result) else o.resultRead,
      o.startedOut || (a.Emit? && a.kind == Started),
      if a.Emit? && a.kind != Started then Some(a.kind) else o.terminal,
      o.closed || a.Released? || a.Abandoned?)
  }

  function See(w: Word): Seen {
    if w == [] then NOTHING else Observe(See(w[..|w| - 1]), w[|w| - 1])
  }

  // The result of the last lost connection, or 0.
  function LossOf(o: Seen): int {
    if o.lost.Some? then o.lost.value else 0
  }

  // Whether a session that did not commit has failed with `r`: with CANCELLED if it was
  // interrupted, and otherwise with the result of the call that failed; or with CANCELLED
  // before LiStartConnection because a stop was asked.
  predicate FailsWith(o: Seen, r: int) {
    && r != 0
    && (if o.interrupted then r == CANCELLED
        else if o.returned.Some? then o.returned == Some(r)
        else if o.setupFailed.Some? then o.setupFailed == Some(r)
        else o.stopAsked && r == CANCELLED)
  }

  // Whether session `id`, of which `o` was seen, may do `a` next. This speaks only of
  // what was observed, not of the flags.
  predicate MayFollow(id: nat, o: Seen, a: Action) {
    && (o.admission.None? <==> a.Admission?)
    && !o.closed
    && match a {
         case Admission(_) => true
         case Abandoned => !o.liStart && !o.startedOut && o.terminal.None?
         case StopAsked => true
         case Terminated(_) => true
         case SetupFailed(r) => r != 0 && !o.liStart && o.setupFailed.None? && o.terminal.None?
         case LiStart => !o.liStart && o.setupFailed.None? && o.terminal.None?
         case Stage => o.liStart && !o.committed && o.returned.None?
         case Interrupted =>
           && !o.interrupted && o.stage && o.stopAsked
           && !o.committed && o.returned != Some(0)
         case Committed => !o.committed && o.stage && !o.stopAsked && o.returned.None?
         case LiReturn(r) =>
           && o.liStart && o.returned.None?
           && (r == 0 ==> o.committed || o.interrupted)
           && (o.committed ==> r == 0 && o.inputStart)
         case LiStop =>
           o.returned == Some(0) && !o.liStop && (o.inputStart ==> o.inputStop)
         case InputStart => o.committed && !o.inputStart && !o.liStop
         case InputStop => o.inputStart && !o.inputStop
         case ResultRead(r) => o.committed && o.liStop && o.resultRead.None? && r == LossOf(o)
         case Emit(kind, r, session) =>
           && o.admission == Some(true) && session == id && o.terminal.None?
           && (match kind {
                 case Started => r == 0 && !o.startedOut && o.inputStart && o.returned.None?
                 case Stopped => o.startedOut && o.resultRead == Some(r)
                 case Failed =>
                   && FailsWith(o, r) && !o.startedOut && !o.committed
                   && (o.liStart ==> o.returned.Some?) && (o.returned == Some(0) ==> o.liStop)
               })
         case Released =>
           && (o.liStart ==> o.returned.Some?)
           && (o.returned == Some(0) ==> o.liStop)
           && (o.admission == Some(true) ==> o.terminal.Some?)
       }
  }

  ghost predicate Lawful(id: nat, w: Word) {
    w != [] ==>
      var n := |w| - 1;
      Lawful(id, w[..n]) && MayFollow(id, See(w[..n]), w[n])
  }

  ghost predicate Complete(id: nat, w: Word) {
    Lawful(id, w) && See(w).closed
  }

  lemma SeeAppend(w: Word, a: Action)
    ensures See(w + [a]) == Observe(See(w), a)
  {
    assert (w + [a])[..|w|] == w;
  }

  lemma LawfulAppend(id: nat, w: Word, a: Action)
    requires Lawful(id, w) && MayFollow(id, See(w), a)
    ensures Lawful(id, w + [a])
    ensures See(w + [a]) == Observe(See(w), a)
  {
    SeeAppend(w, a);
    assert (w + [a])[..|w|] == w;
  }

  /* ---------- The system ---------- */

  // stream_cancel_requested is asked at lines 586, 375, 378, 390, 496, 536 and 552
  const CANCEL_CHECKS := 7

  // What the owner does next.
  datatype Owner =
    | NoOwner
    | Creating
    | Setup(passed: nat)
    | CallLi
    | InLi(staged: bool, ready: bool)
    | StartingInput
    | LiReturned(result: int)
    | StoppingCancelled
    | Polling
    | StoppingInput
    | StoppingTransport
    | ReadingResult
    | Reading(kind: Kind, result: int)
    | Calling(kind: Kind, result: int, callback: Option<nat>)
    | InCallback(kind: Kind, result: int)
    | Releasing

  datatype Step =
    | Start(withCallback: bool) | CreateOk | CreateFails
    | CheckCancel | SetupFails(result: int) | EnterLi
    | StageStarting | ConnectionReady | LiFails(result: int) | LiSucceeds
    | InputStarts | ReadCallback | CallCallback | CallbackReturns
    | FinishStart | StopCancelled
    | Poll | InputStops | TransportStops | ReadResult | ReleaseOwner
    | RequestStop | Termination(result: int)

  predicate Can(owner: Owner, step: Step) {
    match step {
      case Start(_) => true
      case CreateOk => owner == Creating
      case CreateFails => owner == Creating
      case CheckCancel => owner.Setup?
      case SetupFails(r) => owner.Setup? && owner.passed > 0 && r != 0
      case EnterLi => owner == CallLi
      case StageStarting => owner.InLi? && !owner.ready
      case ConnectionReady => owner == InLi(true, false)
      case LiFails(r) => owner.InLi? && !owner.ready && r != 0
      case LiSucceeds => owner.InLi? && owner.ready
      case InputStarts => owner == StartingInput
      case ReadCallback => owner.Reading?
      case CallCallback => owner.Calling?
      case CallbackReturns => owner.InCallback?
      case FinishStart => owner.LiReturned?
      case StopCancelled => owner == StoppingCancelled
      case Poll => owner == Polling
      case InputStops => owner == StoppingInput
      case TransportStops => owner == StoppingTransport
      case ReadResult => owner == ReadingResult
      case ReleaseOwner => owner == Releasing
      case RequestStop => true
      case Termination(_) => true
    }
  }

  datatype Notes = Silent | One(a: Action) | Two(a: Action, b: Action)

  datatype Effect = Effect(flags: Flags, owner: Owner, notes: Notes)

  // Sets the flags, and notes the LiInterruptConnection call if one is due.
  function WithInterrupt(f: Flags, owner: Owner, a: Action): Effect {
    Effect(Interrupt(f), owner, if InterruptDue(f) then Two(a, Interrupted) else One(a))
  }

  function EffectOf(id: nat, f: Flags, owner: Owner, step: Step): Effect
    requires Can(owner, step)
  {
    var same := Effect(f, owner, Silent);
    match step {
      case Start(withCallback) =>
        if f.running then same
        else Effect(Admit(if withCallback then Some(id) else None), Creating,
                    One(Admission(withCallback)))
      case CreateOk => same.(owner := Setup(0))
      case CreateFails => Effect(Abandon(f), NoOwner, One(Abandoned))
      case CheckCancel =>
        if f.cancelRequested then same.(owner := Reading(Failed, CANCELLED))
        else if owner.passed + 1 == CANCEL_CHECKS then same.(owner := CallLi)
        else same.(owner := Setup(owner.passed + 1))
      case SetupFails(r) => Effect(f, Reading(Failed, r), One(SetupFailed(r)))
      case EnterLi => Effect(f, InLi(false, false), One(LiStart))
      case StageStarting => WithInterrupt(Publish(f), InLi(true, false), Stage)
      case ConnectionReady =>
        if f.cancelRequested then Effect(Ready(f), InLi(true, true), Silent)
        else Effect(Ready(f), StartingInput, One(Committed))
      case LiFails(r) => Effect(f, LiReturned(r), One(LiReturn(r)))
      case LiSucceeds => Effect(f, LiReturned(0), One(LiReturn(0)))
      case InputStarts => Effect(f, Reading(Started, 0), One(InputStart))
      case ReadCallback =>
        var next := Calling(owner.kind, owner.result, f.callback);
        Effect(if owner.kind == Started then f else BeginFinish(f), next, Silent)
      case CallCallback =>
        Effect(f, InCallback(owner.kind, owner.result),
               if owner.callback.None? then Silent
               else One(Emit(owner.kind, owner.result, owner.callback.value)))
      case CallbackReturns =>
        same.(owner := if owner.kind == Started then InLi(true, true) else Releasing)
      case FinishStart =>
        var outcome := StartupOutcome(f, owner.result);
        Effect(FinishStartup(f),
               if StartupCancelled(f) && owner.result == 0 then StoppingCancelled
               else if outcome == 0 then Polling
               else Reading(Failed, outcome),
               Silent)
      case StopCancelled => Effect(f, Reading(Failed, CANCELLED), One(LiStop))
      case Poll => if f.stopRequested || f.cancelRequested then same.(owner := StoppingInput) else same
      case InputStops => Effect(f, StoppingTransport, One(InputStop))
      case TransportStops => Effect(f, ReadingResult, One(LiStop))
      case ReadResult => Effect(f, Reading(Stopped, f.terminationResult), One(ResultRead(f.terminationResult)))
      case ReleaseOwner => Effect(Release(f), NoOwner, One(Released))
      case RequestStop => if f.running then WithInterrupt(AskStop(f), owner, StopAsked) else same
      case Termination(r) =>
        if f.running then Effect(Terminate(f, r), owner, One(Terminated(r))) else same
    }
  }

  datatype System = System(flags: Flags, owner: Owner, past: seq<Word>, word: Word)

  const INIT := System(INITIAL, NoOwner, [], [])

  function NotesOf(n: Notes): Word {
    match n case Silent => [] case One(a) => [a] case Two(a, b) => [a, b]
  }

  function Do(s: System, step: Step): System
    requires Can(s.owner, step)
  {
    Apply(s, EffectOf(|s.past|, s.flags, s.owner, step))
  }

  // A session's word is closed when its owner is gone.
  function Apply(s: System, e: Effect): System {
    var w := s.word + NotesOf(e.notes);
    if s.owner != NoOwner && e.owner == NoOwner
    then System(e.flags, e.owner, s.past + [w], [])
    else System(e.flags, e.owner, s.past, w)
  }

  // The state after a run, if every step of the run can be taken.
  function Run(steps: seq<Step>): Option<System> {
    if steps == [] then Some(INIT)
    else
      var before := Run(steps[..|steps| - 1]);
      if before.Some? && Can(before.value.owner, steps[|steps| - 1])
      then Some(Do(before.value, steps[|steps| - 1]))
      else None
  }

  /* ---------- The invariant ---------- */

  predicate Fresh(f: Flags, o: Seen) {
    && !f.commonStarting && !f.interruptSent && !f.started
    && !o.liStart && !o.stage && !o.interrupted && !o.committed && o.returned.None? && o.setupFailed.None?
    && !o.liStop && !o.inputStart && !o.inputStop && !o.startedOut && o.terminal.None? && o.resultRead.None?
  }

  // Inside LiStartConnection or just after its return, not committed. The last
  // conjunct is the point of the interrupt protocol: once a stage was published, a
  // cancelled startup has been interrupted.
  predicate Uncommitted(f: Flags, o: Seen) {
    && o.liStart && !f.started
    && !o.committed && !o.liStop && !o.inputStart && !o.inputStop && !o.startedOut && o.terminal.None?
    && o.resultRead.None?
    && (o.interrupted <==> f.interruptSent)
    && (f.interruptSent ==> f.cancelRequested)
    && (o.stage && f.cancelRequested ==> f.interruptSent)
  }

  // After the commit, until the transport is stopped.
  predicate Live(f: Flags, o: Seen) {
    && o.liStart && o.stage && o.committed && f.started
    && !o.interrupted && !f.interruptSent && !f.commonStarting
    && !o.liStop && o.terminal.None? && o.resultRead.None?
  }

  predicate Streaming(f: Flags, o: Seen) {
    Live(f, o) && o.inputStart && !o.inputStop && (f.callback.Some? ==> o.startedOut)
  }

  // Where a terminal event with `kind` and `result` may be published.
  predicate Finished(f: Flags, o: Seen, kind: Kind, result: int) {
    && !f.commonStarting && !f.interruptSent
    && (o.liStart ==> o.returned.Some?)
    && (o.returned == Some(0) ==> o.liStop)
    && (kind == Failed ==>
          && FailsWith(o, result) && !o.committed && !o.inputStart && !o.startedOut && !f.started)
    && (kind == Stopped ==>
          && o.committed && o.liStop && !o.interrupted && (f.callback.Some? ==> o.startedOut)
          && o.resultRead == Some(result))
  }

  predicate OwnerInv(f: Flags, owner: Owner, o: Seen) {
    match owner {
      case NoOwner => true
      case Creating => Fresh(f, o)
      case Setup(passed) => Fresh(f, o) && passed < CANCEL_CHECKS
      case CallLi => Fresh(f, o)
      case InLi(staged, ready) =>
        && o.returned.None? && (staged <==> o.stage)
        && (if ready && f.started then Streaming(f, o)
            else
              && Uncommitted(f, o)
              && (ready ==> !f.commonStarting && f.cancelRequested && staged)
              && (!ready ==> f.commonStarting == staged))
      case StartingInput =>
        Live(f, o) && !o.inputStart && !o.inputStop && o.returned.None? && !o.startedOut
      case LiReturned(r) =>
        && o.returned == Some(r)
        && (if f.started then r == 0 && Streaming(f, o)
            else
              && Uncommitted(f, o)
              && (r == 0 ==> !f.commonStarting && f.cancelRequested && o.stage)
              && (r != 0 ==> f.commonStarting == o.stage))
      case StoppingCancelled =>
        && !f.started && !f.commonStarting && !f.interruptSent
        && o.returned == Some(0) && o.interrupted
        && !o.committed && !o.liStop && !o.inputStart && !o.inputStop
        && !o.startedOut && o.terminal.None? && o.resultRead.None?
      case Polling => Streaming(f, o) && o.returned == Some(0)
      case StoppingInput => Streaming(f, o) && o.returned == Some(0)
      case StoppingTransport =>
        && Live(f, o) && o.inputStart && o.inputStop && o.returned == Some(0)
        && (f.callback.Some? ==> o.startedOut)
      case ReadingResult =>
        && !f.commonStarting && !f.interruptSent && o.liStart && o.returned == Some(0)
        && o.committed && o.liStop && !o.interrupted && (f.callback.Some? ==> o.startedOut)
        && o.resultRead.None? && o.terminal.None?
      case Reading(kind, r) =>
        if kind == Started then
          r == 0 && Live(f, o) && o.inputStart && !o.inputStop && o.returned.None? && !o.startedOut
        else
          Finished(f, o, kind, r) && o.terminal.None?
      case Calling(kind, r, callback) =>
        && callback == f.callback
        && (if kind == Started then
              r == 0 && Live(f, o) && o.inputStart && !o.inputStop && o.returned.None? && !o.startedOut
            else
              Finished(f, o, kind, r) && o.terminal.None?)
      case InCallback(kind, r) =>
        if kind == Started then Streaming(f, o) && o.returned.None?
        else Finished(f, o, kind, r) && (f.callback.Some? ==> o.terminal.Some?)
      case Releasing =>
        && !f.commonStarting && !f.interruptSent
        && (o.liStart ==> o.returned.Some?)
        && (o.returned == Some(0) ==> o.liStop)
        && (f.callback.Some? ==> o.terminal.Some?)
    }
  }

  // Which session the flags belong to, and what they remember of it.
  predicate FlagsFit(id: nat, f: Flags, owner: Owner, o: Seen) {
    && (f.running <==> owner != NoOwner)
    && (owner != NoOwner ==>
          && !o.closed
          && o.admission == Some(f.callback.Some?)
          && (f.callback.Some? ==> f.callback.value == id)
          && (f.cancelRequested <==> o.stopAsked)
          && (f.stopRequested <==> o.stopAsked || o.lost.Some?)
          && f.terminationResult == LossOf(o))
  }

  predicate SessionInv(id: nat, f: Flags, owner: Owner, o: Seen) {
    FlagsFit(id, f, owner, o) && OwnerInv(f, owner, o)
  }

  /* ---------- Every step keeps it, and is lawful ---------- */

  function ObserveAll(o: Seen, n: Notes): Seen {
    match n
    case Silent => o
    case One(a) => Observe(o, a)
    case Two(a, b) => Observe(Observe(o, a), b)
  }

  predicate LawfulNotes(id: nat, o: Seen, n: Notes) {
    match n
    case Silent => true
    case One(a) => MayFollow(id, o, a)
    case Two(a, b) => MayFollow(id, o, a) && MayFollow(id, Observe(o, a), b)
  }

  predicate Outside(step: Step) {
    step.RequestStop? || step.Termination?
  }

  predicate Publishing(owner: Owner) {
    owner.Reading? || owner.Calling? || owner.InCallback?
  }

  lemma CallIsLawful(id: nat, f: Flags, owner: Owner, o: Seen, step: Step)
    requires SessionInv(id, f, owner, o) && Can(owner, step) && step.CallCallback?
    ensures LawfulNotes(id, o, EffectOf(id, f, owner, step).notes)
  {
  }

  lemma OwnerIsLawful(id: nat, f: Flags, owner: Owner, o: Seen, step: Step)
    requires SessionInv(id, f, owner, o) && Can(owner, step) && (owner == NoOwner ==> o == NOTHING) && !Outside(step)
    ensures LawfulNotes(id, o, EffectOf(id, f, owner, step).notes)
  {
    if step.CallCallback? {
      CallIsLawful(id, f, owner, o, step);
    } else if step.StageStarting? || step.ConnectionReady? || step.LiFails? || step.LiSucceeds? {
      StartupIsLawful(id, f, owner, o, step);
    } else if owner.StoppingCancelled? || owner.StoppingInput? || owner.StoppingTransport? || owner.ReadingResult? ||
              owner.Releasing? {
      TeardownIsLawful(id, f, owner, o, step);
    }
  }

  lemma TeardownIsLawful(id: nat, f: Flags, owner: Owner, o: Seen, step: Step)
    requires SessionInv(id, f, owner, o) && Can(owner, step) && !Outside(step)
    requires owner.StoppingCancelled? || owner.StoppingInput? || owner.StoppingTransport? || owner.ReadingResult? ||
             owner.Releasing?
    ensures LawfulNotes(id, o, EffectOf(id, f, owner, step).notes)
  {
  }

  lemma StartupIsLawful(id: nat, f: Flags, owner: Owner, o: Seen, step: Step)
    requires SessionInv(id, f, owner, o) && Can(owner, step)
    requires step.StageStarting? || step.ConnectionReady? || step.LiFails? || step.LiSucceeds?
    ensures LawfulNotes(id, o, EffectOf(id, f, owner, step).notes)
  {
  }

  lemma TerminationIsLawful(id: nat, f: Flags, owner: Owner, o: Seen, step: Step)
    requires SessionInv(id, f, owner, o) && Can(owner, step) && (owner == NoOwner ==> o == NOTHING)
    requires step.Termination?
    ensures LawfulNotes(id, o, EffectOf(id, f, owner, step).notes)
  {
  }

  lemma OutsideIsLawful(id: nat, f: Flags, owner: Owner, o: Seen, step: Step)
    requires SessionInv(id, f, owner, o) && Can(owner, step) && (owner == NoOwner ==> o == NOTHING) && Outside(step)
    ensures LawfulNotes(id, o, EffectOf(id, f, owner, step).notes)
  {
    if step.RequestStop? {
    } else {
      TerminationIsLawful(id, f, owner, o, step);
    }
  }

  lemma SetupKeeps(id: nat, f: Flags, owner: Owner, o: Seen, step: Step)
    requires SessionInv(id, f, owner, o) && Can(owner, step) && (owner == NoOwner ==> o == NOTHING)
    requires step.CheckCancel? || step.SetupFails? || step.EnterLi?
    ensures var e := EffectOf(id, f, owner, step); SessionInv(id, e.flags, e.owner, ObserveAll(o, e.notes))
  {
  }

  lemma AdmissionKeeps(id: nat, f: Flags, owner: Owner, o: Seen, step: Step)
    requires SessionInv(id, f, owner, o) && Can(owner, step) && (owner == NoOwner ==> o == NOTHING)
    requires step.Start? || step.CreateOk? || step.CreateFails?
    ensures var e := EffectOf(id, f, owner, step); SessionInv(id, e.flags, e.owner, ObserveAll(o, e.notes))
  {
  }

  lemma StageKeeps(id: nat, f: Flags, owner: Owner, o: Seen, step: Step)
    requires SessionInv(id, f, owner, o) && Can(owner, step) && (owner == NoOwner ==> o == NOTHING)
    requires step.StageStarting? || step.ConnectionReady?
    ensures var e := EffectOf(id, f, owner, step); SessionInv(id, e.flags, e.owner, ObserveAll(o, e.notes))
  {
  }

  lemma ReturnKeeps(id: nat, f: Flags, owner: Owner, o: Seen, step: Step)
    requires SessionInv(id, f, owner, o) && Can(owner, step) && (owner == NoOwner ==> o == NOTHING)
    requires step.LiFails? || step.LiSucceeds?
    ensures var e := EffectOf(id, f, owner, step); SessionInv(id, e.flags, e.owner, ObserveAll(o, e.notes))
  {
  }

  lemma OutcomeKeeps(id: nat, f: Flags, owner: Owner, o: Seen, step: Step)
    requires SessionInv(id, f, owner, o) && Can(owner, step) && (owner == NoOwner ==> o == NOTHING)
    requires step.InputStarts? || step.StopCancelled?
    ensures var e := EffectOf(id, f, owner, step); SessionInv(id, e.flags, e.owner, ObserveAll(o, e.notes))
  {
  }

  lemma FinishKeeps(id: nat, f: Flags, owner: Owner, o: Seen, step: Step)
    requires SessionInv(id, f, owner, o) && Can(owner, step) && step.FinishStart?
    ensures var e := EffectOf(id, f, owner, step); SessionInv(id, e.flags, e.owner, ObserveAll(o, e.notes))
  {
  }

  lemma ReadKeeps(id: nat, f: Flags, owner: Owner, o: Seen, step: Step)
    requires SessionInv(id, f, owner, o) && Can(owner, step) && (owner == NoOwner ==> o == NOTHING)
    requires step.ReadCallback?
    ensures var e := EffectOf(id, f, owner, step); SessionInv(id, e.flags, e.owner, ObserveAll(o, e.notes))
  {
  }

  lemma CallbackKeeps(id: nat, f: Flags, owner: Owner, o: Seen, step: Step)
    requires SessionInv(id, f, owner, o) && Can(owner, step) && (owner == NoOwner ==> o == NOTHING)
    requires step.CallbackReturns?
    ensures var e := EffectOf(id, f, owner, step); SessionInv(id, e.flags, e.owner, ObserveAll(o, e.notes))
  {
  }

  lemma CallKeeps(id: nat, f: Flags, owner: Owner, o: Seen, step: Step)
    requires SessionInv(id, f, owner, o) && Can(owner, step) && step.CallCallback?
    ensures var e := EffectOf(id, f, owner, step); SessionInv(id, e.flags, e.owner, ObserveAll(o, e.notes))
  {
    if owner.kind == Started {
      StartedKeeps(id, f, owner, o, step);
    }
  }

  lemma StartedKeeps(id: nat, f: Flags, owner: Owner, o: Seen, step: Step)
    requires SessionInv(id, f, owner, o) && Can(owner, step) && step.CallCallback? && owner.kind == Started
    ensures var e := EffectOf(id, f, owner, step); SessionInv(id, e.flags, e.owner, ObserveAll(o, e.notes))
  {
  }

  lemma PollKeeps(id: nat, f: Flags, owner: Owner, o: Seen, step: Step)
    requires SessionInv(id, f, owner, o) && Can(owner, step) && (owner == NoOwner ==> o == NOTHING)
    requires step.Poll? || step.InputStops?
    ensures var e := EffectOf(id, f, owner, step); SessionInv(id, e.flags, e.owner, ObserveAll(o, e.notes))
  {
  }

  lemma TeardownKeeps(id: nat, f: Flags, owner: Owner, o: Seen, step: Step)
    requires SessionInv(id, f, owner, o) && Can(owner, step) && (owner == NoOwner ==> o == NOTHING)
    requires step.TransportStops? || step.ReleaseOwner?
    ensures var e := EffectOf(id, f, owner, step); SessionInv(id, e.flags, e.owner, ObserveAll(o, e.notes))
  {
  }

  lemma ResultKeeps(id: nat, f: Flags, owner: Owner, o: Seen, step: Step)
    requires SessionInv(id, f, owner, o) && Can(owner, step) && (owner == NoOwner ==> o == NOTHING)
    requires step.ReadResult?
    ensures var e := EffectOf(id, f, owner, step); SessionInv(id, e.flags, e.owner, ObserveAll(o, e.notes))
  {
  }

  // What another thread does leaves the owner where it is.
  lemma LossKeepsOwner(f: Flags, owner: Owner, o: Seen, result: int)
    requires OwnerInv(f, owner, o)
    ensures OwnerInv(Terminate(f, result), owner, Observe(o, Terminated(result)))
  {
  }

  lemma RequestKeepsOwner(f: Flags, owner: Owner, o: Seen)
    requires OwnerInv(f, owner, o) && !InterruptDue(AskStop(f))
    ensures OwnerInv(AskStop(f), owner, Observe(o, StopAsked))
  {
  }

  lemma InterruptKeepsOwner(f: Flags, owner: Owner, o: Seen)
    requires OwnerInv(f, owner, o) && InterruptDue(AskStop(f))
    ensures OwnerInv(Interrupt(AskStop(f)), owner, Observe(Observe(o, StopAsked), Interrupted))
  {
  }

  lemma LossFits(id: nat, f: Flags, owner: Owner, o: Seen, result: int)
    requires FlagsFit(id, f, owner, o) && f.running
    ensures FlagsFit(id, Terminate(f, result), owner, Observe(o, Terminated(result)))
  {
  }

  lemma RequestFits(id: nat, f: Flags, owner: Owner, o: Seen)
    requires FlagsFit(id, f, owner, o) && f.running
    ensures FlagsFit(id, AskStop(f), owner, Observe(o, StopAsked))
  {
  }

  lemma InterruptFits(id: nat, f: Flags, owner: Owner, o: Seen)
    requires FlagsFit(id, f, owner, o)
    ensures FlagsFit(id, Interrupt(f), owner, Observe(o, Interrupted))
  {
  }

  lemma TerminationKeeps(id: nat, f: Flags, owner: Owner, o: Seen, step: Step)
    requires SessionInv(id, f, owner, o) && Can(owner, step) && step.Termination?
    ensures var e := EffectOf(id, f, owner, step); SessionInv(id, e.flags, e.owner, ObserveAll(o, e.notes))
  {
    if f.running {
      LossFits(id, f, owner, o, step.result);
      LossKeepsOwner(f, owner, o, step.result);
    }
  }

  lemma RequestKeeps(id: nat, f: Flags, owner: Owner, o: Seen, step: Step)
    requires SessionInv(id, f, owner, o) && Can(owner, step) && step.RequestStop?
    ensures var e := EffectOf(id, f, owner, step); SessionInv(id, e.flags, e.owner, ObserveAll(o, e.notes))
  {
    if f.running {
      RequestFits(id, f, owner, o);
      if InterruptDue(AskStop(f)) {
        InterruptFits(id, AskStop(f), owner, Observe(o, StopAsked));
        InterruptKeepsOwner(f, owner, o);
      } else {
        RequestKeepsOwner(f, owner, o);
      }
    }
  }

  lemma OutsideKeeps(id: nat, f: Flags, owner: Owner, o: Seen, step: Step)
    requires SessionInv(id, f, owner, o) && Can(owner, step) && Outside(step)
    ensures var e := EffectOf(id, f, owner, step); SessionInv(id, e.flags, e.owner, ObserveAll(o, e.notes))
  {
    if step.Termination? {
      TerminationKeeps(id, f, owner, o, step);
    } else {
      RequestKeeps(id, f, owner, o, step);
    }
  }

  lemma OwnerKeeps(id: nat, f: Flags, owner: Owner, o: Seen, step: Step)
    requires SessionInv(id, f, owner, o) && Can(owner, step) && (owner == NoOwner ==> o == NOTHING) && !Outside(step)
    ensures var e := EffectOf(id, f, owner, step); SessionInv(id, e.flags, e.owner, ObserveAll(o, e.notes))
  {
    if step.Start? || step.CreateOk? || step.CreateFails? {
      AdmissionKeeps(id, f, owner, o, step);
    } else if step.CheckCancel? || step.SetupFails? || step.EnterLi? {
      SetupKeeps(id, f, owner, o, step);
    } else if step.StageStarting? || step.ConnectionReady? {
      StageKeeps(id, f, owner, o, step);
    } else if step.LiFails? || step.LiSucceeds? {
      ReturnKeeps(id, f, owner, o, step);
    } else if step.InputStarts? || step.StopCancelled? {
      OutcomeKeeps(id, f, owner, o, step);
    } else if step.FinishStart? {
      FinishKeeps(id, f, owner, o, step);
    } else if step.ReadCallback? {
      ReadKeeps(id, f, owner, o, step);
    } else if step.CallbackReturns? {
      CallbackKeeps(id, f, owner, o, step);
    } else if step.CallCallback? {
      CallKeeps(id, f, owner, o, step);
    } else if step.Poll? || step.InputStops? {
      PollKeeps(id, f, owner, o, step);
    } else if step.ReadResult? {
      ResultKeeps(id, f, owner, o, step);
    } else {
      TeardownKeeps(id, f, owner, o, step);
    }
  }

  lemma StaysOwned(id: nat, f: Flags, owner: Owner, step: Step)
    requires Can(owner, step) && owner != NoOwner && !step.CreateFails? && !step.ReleaseOwner?
    ensures EffectOf(id, f, owner, step).owner != NoOwner
  {
  }

  lemma ClosedWhenGone(id: nat, f: Flags, owner: Owner, o: Seen, step: Step)
    requires SessionInv(id, f, owner, o) && Can(owner, step) && (owner == NoOwner ==> o == NOTHING)
    ensures var e := EffectOf(id, f, owner, step);
      && (owner == NoOwner && e.owner == NoOwner ==> e.notes == Silent)
      && (owner != NoOwner && e.owner == NoOwner ==> ObserveAll(o, e.notes).closed)
  {
    if owner != NoOwner && !step.CreateFails? && !step.ReleaseOwner? {
      StaysOwned(id, f, owner, step);
    }
  }

  ghost predicate AllComplete(past: seq<Word>) {
    forall i :: 0 <= i < |past| ==> Complete(i, past[i])
  }

  ghost predicate Inv(s: System) {
    && SessionInv(|s.past|, s.flags, s.owner, See(s.word))
    && (s.owner == NoOwner ==> s.word == [])
    && Lawful(|s.past|, s.word)
    && AllComplete(s.past)
  }

  lemma NotesAppend(id: nat, w: Word, n: Notes)
    requires Lawful(id, w) && LawfulNotes(id, See(w), n)
    ensures Lawful(id, w + NotesOf(n)) && See(w + NotesOf(n)) == ObserveAll(See(w), n)
  {
    match n {
      case Silent => assert w + [] == w;
      case One(a) => LawfulAppend(id, w, a);
      case Two(a, b) =>
        LawfulAppend(id, w, a);
        LawfulAppend(id, w + [a], b);
        assert w + [a] + [b] == w + [a, b];
    }
  }

  predicate Closes(s: System, e: Effect) {
    s.owner != NoOwner && e.owner == NoOwner
  }

  lemma WordsKept(s: System, e: Effect)
    requires Lawful(|s.past|, s.word) && LawfulNotes(|s.past|, See(s.word), e.notes)
    requires AllComplete(s.past)
    requires Closes(s, e) ==> ObserveAll(See(s.word), e.notes).closed
    ensures Lawful(|Apply(s, e).past|, Apply(s, e).word) && AllComplete(Apply(s, e).past)
    ensures See(Apply(s, e).word) == if Closes(s, e) then NOTHING else ObserveAll(See(s.word), e.notes)
  {
    NotesAppend(|s.past|, s.word, e.notes);
    var w := s.word + NotesOf(e.notes);
    if Closes(s, e) {
      assert Complete(|s.past|, w);
      forall i | 0 <= i < |s.past| + 1
        ensures Complete(i, (s.past + [w])[i])
      {
        if i < |s.past| {
          assert (s.past + [w])[i] == s.past[i];
        }
      }
    }
  }

  lemma ApplyKeeps(s: System, e: Effect)
    requires SessionInv(|s.past|, e.flags, e.owner, ObserveAll(See(s.word), e.notes))
    requires See(Apply(s, e).word) == if Closes(s, e) then NOTHING else ObserveAll(See(s.word), e.notes)
    ensures var s' := Apply(s, e); SessionInv(|s'.past|, s'.flags, s'.owner, See(s'.word))
  {
  }

  lemma EffectIsLawful(id: nat, f: Flags, owner: Owner, o: Seen, step: Step)
    requires SessionInv(id, f, owner, o) && Can(owner, step) && (owner == NoOwner ==> o == NOTHING)
    ensures LawfulNotes(id, o, EffectOf(id, f, owner, step).notes)
  {
    if Outside(step) {
      OutsideIsLawful(id, f, owner, o, step);
    } else {
      OwnerIsLawful(id, f, owner, o, step);
    }
  }

  lemma WordsStep(s: System, step: Step)
    requires Inv(s) && Can(s.owner, step)
    ensures var s' := Do(s, step);
      && Lawful(|s'.past|, s'.word) && AllComplete(s'.past)
      && (s'.owner == NoOwner ==> s'.word == [])
    ensures var e := EffectOf(|s.past|, s.flags, s.owner, step);
      See(Do(s, step).word) == if Closes(s, e) then NOTHING else ObserveAll(See(s.word), e.notes)
  {
    var e := EffectOf(|s.past|, s.flags, s.owner, step);
    EffectIsLawful(|s.past|, s.flags, s.owner, See(s.word), step);
    ClosedWhenGone(|s.past|, s.flags, s.owner, See(s.word), step);
    WordsKept(s, e);
  }

  lemma StepKeeps(s: System, step: Step)
    requires Inv(s) && Can(s.owner, step)
    ensures Inv(Do(s, step))
  {
    WordsStep(s, step);
    EffectKeeps(|s.past|, s.flags, s.owner, See(s.word), step);
    ApplyKeeps(s, EffectOf(|s.past|, s.flags, s.owner, step));
  }

  lemma EffectKeeps(id: nat, f: Flags, owner: Owner, o: Seen, step: Step)
    requires SessionInv(id, f, owner, o) && Can(owner, step) && (owner == NoOwner ==> o == NOTHING)
    ensures var e := EffectOf(id, f, owner, step); SessionInv(id, e.flags, e.owner, ObserveAll(o, e.notes))
  {
    if Outside(step) {
      OutsideKeeps(id, f, owner, o, step);
    } else {
      OwnerKeeps(id, f, owner, o, step);
    }
  }

  lemma {:induction false} RunKeeps(steps: seq<Step>)
    requires Run(steps).Some?
    ensures Inv(Run(steps).value)
  {
    if steps != [] {
      RunKeeps(steps[..|steps| - 1]);
      StepKeeps(Run(steps[..|steps| - 1]).value, steps[|steps| - 1]);
    }
  }
}
