// Runs of the host control of src/moonlight/api.cpp in which a start request comes between
// the first two writes of the STARTED callback, which hold no lock.
module HostRaces {
  import opened Options
  import opened StreamFlags
  import opened StreamSession
  import opened HostControl
  import opened HostStates

  // The same but for the words
  predicate Same(g: Host, h: Host) {
    && g.api == h.api && g.stream.flags == h.stream.flags && g.stream.owner == h.stream.owner
    && |g.stream.past| == |h.stream.past|
  }

  ghost predicate At(steps: seq<HostStep>, h: Host) {
    RunHost(steps).Some? && Same(RunHost(steps).value, h)
  }

  lemma SameNext(g: Host, h: Host, step: HostStep)
    requires Same(g, h) && Possible(h, step)
    ensures Possible(g, step) && Same(Next(g, step), Next(h, step))
  {
  }

  // One more step
  lemma Then(steps: seq<HostStep>, h: Host, step: HostStep) returns (more: seq<HostStep>)
    requires At(steps, h) && Possible(h, step)
    ensures At(more, Next(h, step)) && more == steps + [step]
  {
    more := steps + [step];
    assert more[..|more| - 1] == steps;
    SameNext(RunHost(steps).value, h, step);
  }

  // A stream step that the API does not see
  lemma ThenStream(steps: seq<HostStep>, h: Host, step: Step) returns (more: seq<HostStep>)
    requires At(steps, h) && Can(h.stream.owner, step) && Own(h.api, step)
    ensures At(more, Next(h, StreamStep(step))) && more == steps + [StreamStep(step)]
  {
    more := Then(steps, h, StreamStep(step));
  }

  function State(a: Api, f: Flags, owner: Owner, sessions: nat): Host {
    Host(a, System(f, owner, seq(sessions, _ => []), []))
  }

  const CONNECTED := Api(Free, true, Paired, true, false, false, false, false, false, 0, [Admitted(ConnectRequest)])

  lemma Connects() returns (steps: seq<HostStep>)
    ensures At(steps, State(CONNECTED, INITIAL, NoOwner, 0))
  {
    steps := [];
    assert At(steps, START);
    steps := Then(steps, START, TryRequest(ConnectRequest));
    var a := START.api.(holder := Connecting(CheckHost), log := [Admitted(ConnectRequest)]);
    assert At(steps, State(a, INITIAL, NoOwner, 0));
    steps := Then(steps, State(a, INITIAL, NoOwner, 0), Advance(true, true));
    a := a.(holder := Connecting(PrepareConnect));
    steps := Then(steps, State(a, INITIAL, NoOwner, 0), Advance(true, true));
    a := a.(holder := Connecting(InitServer));
    steps := Then(steps, State(a, INITIAL, NoOwner, 0), Advance(true, true));
  }

  predicate Startable(a: Api) {
    && a.holder == Free && a.hasHost && a.initialized && a.connection == Paired
    && !a.pending && !a.active && !a.disconnectPending
  }

  // A start request, up to its admission
  lemma Marks(before: seq<HostStep>, a: Api, f: Flags, owner: Owner, n: nat) returns (steps: seq<HostStep>)
    requires At(before, State(a, f, owner, n)) && Startable(a)
    ensures At(steps, State(a.(pending := true, holder := Starting(AdmitSession),
                               log := a.log + [Admitted(StartRequest)]), f, owner, n))
  {
    var b := a.(log := a.log + [Admitted(StartRequest)], holder := Starting(CheckStart));
    steps := Then(before, State(a, f, owner, n), TryRequest(StartRequest));
    steps := Then(steps, State(b, f, owner, n), Advance(true, true));
    b := b.(holder := Starting(MarkPending));
    steps := Then(steps, State(b, f, owner, n), Advance(true, true));
  }

  // The rest of one that is admitted
  lemma Admits(before: seq<HostStep>, a: Api, f: Flags, n: nat) returns (steps: seq<HostStep>)
    requires At(before, State(a, f, NoOwner, n)) && a.holder == Starting(AdmitSession) && !f.running
    ensures At(steps, State(a.(holder := Free), Admit(Some(n)), Setup(0), n))
  {
    steps := Then(before, State(a, f, NoOwner, n), Advance(true, true));
    var b := a.(holder := Starting(CreateOwner));
    assert At(steps, State(b, Admit(Some(n)), Creating, n));
    steps := Then(steps, State(b, Admit(Some(n)), Creating, n), Advance(true, true));
  }

  lemma {:induction false} Checks(before: seq<HostStep>, a: Api, f: Flags, n: nat, passed: nat)
    returns (steps: seq<HostStep>)
    requires At(before, State(a, f, Setup(passed), n)) && !f.cancelRequested && passed < CANCEL_CHECKS
    ensures At(steps, State(a, f, CallLi, n))
    decreases CANCEL_CHECKS - passed
  {
    steps := ThenStream(before, State(a, f, Setup(passed), n), CheckCancel);
    if passed + 1 < CANCEL_CHECKS {
      steps := Checks(steps, a, f, n, passed + 1);
    }
  }

  // The startup of a session that nobody stops, up to the STARTED callback
  lemma Commits(before: seq<HostStep>, a: Api, n: nat) returns (steps: seq<HostStep>)
    requires At(before, State(a, Admit(Some(n)), CallLi, n))
    ensures At(steps, State(a, Admit(Some(n)).(started := true), StartingInput, n))
  {
    var f := Admit(Some(n));
    steps := ThenStream(before, State(a, f, CallLi, n), EnterLi);
    assert At(steps, State(a, f, InLi(false, false), n));
    steps := ThenStream(steps, State(a, f, InLi(false, false), n), StageStarting);
    assert At(steps, State(a, Publish(f), InLi(true, false), n));
    steps := ThenStream(steps, State(a, Publish(f), InLi(true, false), n), ConnectionReady);
  }

  lemma Calls(before: seq<HostStep>, a: Api, f: Flags, n: nat, kind: Kind, result: int) returns (steps: seq<HostStep>)
    requires At(before, State(a, f, Reading(kind, result), n)) && f.callback == Some(n)
    ensures At(steps, State(a.(written := 0), if kind == Started then f else BeginFinish(f), InCallback(kind, result), n))
  {
    var g := if kind == Started then f else BeginFinish(f);
    steps := ThenStream(before, State(a, f, Reading(kind, result), n), ReadCallback);
    assert At(steps, State(a, g, Calling(kind, result, Some(n)), n));
    steps := ThenStream(steps, State(a, g, Calling(kind, result, Some(n)), n), CallCallback);
  }

  const STARTED := Admit(Some(0)).(started := true)

  // The first session after its callback's first write
  const HALFWAY := CONNECTED.(written := 1, log := [Admitted(ConnectRequest), Admitted(StartRequest)])

  // A second start request passes its checks between the first two writes of STARTED.
  lemma Slips() returns (steps: seq<HostStep>)
    ensures At(steps, State(HALFWAY.(pending := true, holder := Starting(AdmitSession),
                                     log := HALFWAY.log + [Admitted(StartRequest)]), STARTED,
                            InCallback(Started, 0), 0))
  {
    steps := Connects();
    steps := Marks(steps, CONNECTED, INITIAL, NoOwner, 0);
    var a := CONNECTED.(pending := true, holder := Starting(AdmitSession), log := HALFWAY.log);
    assert CONNECTED.log + [Admitted(StartRequest)] == HALFWAY.log;
    steps := Admits(steps, a, INITIAL, 0);
    a := a.(holder := Free);
    steps := Checks(steps, a, Admit(Some(0)), 0, 0);
    steps := Commits(steps, a, 0);
    steps := ThenStream(steps, State(a, STARTED, StartingInput, 0), InputStarts);
    steps := Calls(steps, a, STARTED, 0, Started, 0);
    a := a.(written := 0);
    steps := Then(steps, State(a, STARTED, InCallback(Started, 0), 0), OwnerWrites);
    steps := Marks(steps, HALFWAY, STARTED, InCallback(Started, 0), 0);
  }

  // The start request is refused, and goes on to put back Paired.
  lemma Refuses(before: seq<HostStep>, a: Api, f: Flags, owner: Owner, n: nat) returns (steps: seq<HostStep>)
    requires At(before, State(a, f, owner, n)) && a.holder == Starting(AdmitSession) && f.running && !a.active
    requires owner != NoOwner
    ensures At(steps, State(a.(pending := false, holder := Starting(SetPaired)), f, owner, n))
  {
    steps := Then(before, State(a, f, owner, n), Advance(true, true));
    var b := a.(holder := Starting(UnmarkPending));
    assert At(steps, State(b, f, owner, n));
    steps := Unmarks(steps, b, f, owner, n);
  }

  lemma Unmarks(before: seq<HostStep>, a: Api, f: Flags, owner: Owner, n: nat) returns (steps: seq<HostStep>)
    requires At(before, State(a, f, owner, n)) && a.holder == Starting(UnmarkPending) && !a.active
    requires owner != NoOwner
    ensures At(steps, State(a.(pending := false, holder := Starting(SetPaired)), f, owner, n))
  {
    steps := Then(before, State(a, f, owner, n), Advance(true, true));
    var b := a.(pending := false, holder := Starting(RestoreState));
    assert At(steps, State(b, f, owner, n));
    steps := Then(steps, State(b, f, owner, n), Advance(true, true));
  }

  // The callback of STARTED overtakes it.
  lemma Overtakes(before: seq<HostStep>, a: Api, f: Flags, n: nat) returns (steps: seq<HostStep>)
    requires At(before, State(a, f, InCallback(Started, 0), n)) && a.holder == Starting(SetPaired) && a.written == 1
    ensures At(steps, State(a.(holder := Free, active := true, connection := Paired, written := 3), f,
                            InCallback(Started, 0), n))
  {
    steps := Then(before, State(a, f, InCallback(Started, 0), n), OwnerWrites);
    var b := a.(active := true, written := 2);
    steps := Then(steps, State(b, f, InCallback(Started, 0), n), OwnerWrites);
    b := b.(connection := Streaming, written := 3);
    steps := Then(steps, State(b, f, InCallback(Started, 0), n), Advance(true, true));
  }

  // So Paired is put back after Streaming was set: an active stream whose connection state
  // is not Streaming.
  lemma OvertakesStarted() returns (steps: seq<HostStep>)
    ensures RunHost(steps).Some?
    ensures var h := RunHost(steps).value;
      && h.api.active && h.api.connection == Paired && h.api.holder == Free
      && h.stream.owner == InCallback(Started, 0) && h.api.written == 3
    ensures LapseOf(steps).overtaken
  {
    steps := Slips();
    var log := HALFWAY.log + [Admitted(StartRequest)];
    var a := HALFWAY.(pending := true, holder := Starting(AdmitSession), log := log);
    steps := Refuses(steps, a, STARTED, InCallback(Started, 0), 0);
    steps := Overtakes(steps, a.(pending := false, holder := Starting(SetPaired)), STARTED, 0);
    StreamingUnlessOvertaken(steps);
  }

  // All writes of a callback that remain
  lemma {:induction false} Writes(before: seq<HostStep>, a: Api, f: Flags, kind: Kind, result: int, n: nat)
    returns (steps: seq<HostStep>)
    requires At(before, State(a, f, InCallback(kind, result), n)) && a.written <= WRITES
    ensures At(steps, State(Written(a, kind), f, InCallback(kind, result), n))
    decreases WRITES - a.written
  {
    steps := before;
    if a.written < WRITES {
      steps := Then(before, State(a, f, InCallback(kind, result), n), OwnerWrites);
      steps := Writes(steps, OwnerWrite(a, kind), f, kind, result, n);
    }
  }

  function Written(a: Api, kind: Kind): Api
    decreases WRITES - a.written
  {
    if a.written >= WRITES then a else Written(OwnerWrite(a, kind), kind)
  }

  // A streaming session, stopped
  lemma Stops(before: seq<HostStep>, a: Api, f: Flags, n: nat) returns (steps: seq<HostStep>)
    requires At(before, State(a, f, Polling, n)) && f.running && f.started
    ensures At(steps, State(a, AskStop(f), StoppingInput, n))
  {
    steps := ThenStream(before, State(a, f, Polling, n), RequestStop);
    assert Interrupt(AskStop(f)) == AskStop(f);
    assert At(steps, State(a, AskStop(f), Polling, n));
    steps := ThenStream(steps, State(a, AskStop(f), Polling, n), Poll);
  }

  lemma TearsDown(before: seq<HostStep>, a: Api, f: Flags, n: nat) returns (steps: seq<HostStep>)
    requires At(before, State(a, f, StoppingInput, n))
    ensures At(steps, State(a, f, Reading(Stopped, f.terminationResult), n))
  {
    steps := ThenStream(before, State(a, f, StoppingInput, n), InputStops);
    assert At(steps, State(a, f, StoppingTransport, n));
    steps := Disconnects(steps, a, f, n);
  }

  lemma Disconnects(before: seq<HostStep>, a: Api, f: Flags, n: nat) returns (steps: seq<HostStep>)
    requires At(before, State(a, f, StoppingTransport, n))
    ensures At(steps, State(a, f, Reading(Stopped, f.terminationResult), n))
  {
    steps := ThenStream(before, State(a, f, StoppingTransport, n), TransportStops);
    assert At(steps, State(a, f, ReadingResult, n));
    steps := ThenStream(steps, State(a, f, ReadingResult, n), ReadResult);
  }

  lemma Streams(before: seq<HostStep>, a: Api, n: nat) returns (steps: seq<HostStep>)
    requires At(before, State(a, Admit(Some(n)).(started := true), InCallback(Started, 0), n)) && a.written == WRITES
    ensures At(steps, State(a, Admit(Some(n)).(started := true), Polling, n))
  {
    var f := Admit(Some(n)).(started := true);
    steps := ThenStream(before, State(a, f, InCallback(Started, 0), n), CallbackReturns);
    assert At(steps, State(a, f, InLi(true, true), n));
    steps := ThenStream(steps, State(a, f, InLi(true, true), n), LiSucceeds);
    assert At(steps, State(a, f, LiReturned(0), n));
    steps := ThenStream(steps, State(a, f, LiReturned(0), n), FinishStart);
    assert FinishStartup(f) == f;
  }

  lemma Leaves(before: seq<HostStep>, a: Api, f: Flags, n: nat) returns (steps: seq<HostStep>)
    requires At(before, State(a, f, InCallback(Stopped, 0), n)) && a.written == WRITES
    ensures At(steps, State(a, Release(f), NoOwner, n + 1))
  {
    steps := ThenStream(before, State(a, f, InCallback(Stopped, 0), n), CallbackReturns);
    assert At(steps, State(a, f, Releasing, n));
    steps := ThenStream(steps, State(a, f, Releasing, n), ReleaseOwner);
  }

  lemma WritesAll(a: Api, kind: Kind)
    ensures Written(a, kind).written >= WRITES && (a.written <= WRITES ==> Written(a, kind).written == WRITES)
    ensures Written(a, kind).holder == a.holder
    decreases WRITES - a.written
  {
    if a.written < WRITES {
      WritesAll(OwnerWrite(a, kind), kind);
    }
  }

  // The rest of the first session, while the second start request waits
  lemma Finishes(before: seq<HostStep>, a: Api, n: nat) returns (steps: seq<HostStep>, f: Flags)
    requires At(before, State(a, Admit(Some(n)).(started := true), InCallback(Started, 0), n)) && a.written == WRITES
    ensures At(steps, State(Written(a.(written := 0), Stopped), f, NoOwner, n + 1)) && !f.running
  {
    f := AskStop(Admit(Some(n)).(started := true));
    steps := Streams(before, a, n);
    steps := Stops(steps, a, Admit(Some(n)).(started := true), n);
    steps := TearsDown(steps, a, f, n);
    steps := Calls(steps, a, f, n, Stopped, 0);
    steps := Writes(steps, a.(written := 0), BeginFinish(f), Stopped, 0, n);
    WritesAll(a.(written := 0), Stopped);
    steps := Leaves(steps, Written(a.(written := 0), Stopped), BeginFinish(f), n);
    f := Release(BeginFinish(f));
  }

  // The callbacks' writes clear the mark of the request.
  lemma MarkCleared(a: Api)
    requires a.holder == Starting(AdmitSession) && a.written == 1
    ensures var b := Written(Written(a, Started).(written := 0), Stopped);
      !b.pending && !b.active && b.hasHost == a.hasHost && b.holder == a.holder
      && b.disconnectPending == a.disconnectPending
  {
    var b := OwnerWrite(OwnerWrite(a, Started), Started);
    assert Written(a, Started) == Written(b, Started);
    var c := OwnerWrite(b, Started);
    assert Written(b, Started) == Written(c, Started) == c;
    var d := c.(written := 0);
    var e := OwnerWrite(OwnerWrite(d, Stopped), Stopped);
    assert Written(d, Stopped) == Written(e, Stopped);
    var g := OwnerWrite(OwnerWrite(e, Stopped), Stopped);
    assert Written(e, Stopped) == Written(g, Stopped) == g;
  }

  lemma Refused(steps: seq<HostStep>, a: Api)
    requires At(steps, State(a, Admit(Some(1)), Setup(0), 1)) && !a.pending && !a.active && a.holder == StoppingApp
    ensures var h := RunHost(steps).value;
      h.stream.owner == Setup(0) && h.api == a && StreamOf(h, Advance(true, true)) == None
    ensures LapseOf(steps).missed
  {
    PendingUnlessMissed(steps);
    StateHolds(steps);
  }

  // The first session ends while the request is between its mark and its admission, and
  // clears the mark. The second session is admitted, and cannot be stopped while it starts.
  lemma MissesMark() returns (steps: seq<HostStep>)
    ensures RunHost(steps).Some?
    ensures var h := RunHost(steps).value;
      h.stream.owner == Setup(0) && h.api.holder == StoppingApp && StreamOf(h, Advance(true, true)) == None
    ensures LapseOf(steps).missed
  {
    steps := Slips();
    var log := HALFWAY.log + [Admitted(StartRequest)];
    var a := HALFWAY.(pending := true, holder := Starting(AdmitSession), log := log);
    var f;
    steps := Writes(steps, a, STARTED, Started, 0, 0);
    WritesAll(a, Started);
    MarkCleared(a);
    steps, f := Finishes(steps, Written(a, Started), 0);
    var b := Written(Written(a, Started).(written := 0), Stopped);
    steps := Admits(steps, b, f, 1);
    steps := AsksToStop(steps, b.(holder := Free));
    Refused(steps, b.(holder := StoppingApp, log := b.log + [Admitted(StopRequest)]));
  }

  lemma AsksToStop(before: seq<HostStep>, a: Api) returns (steps: seq<HostStep>)
    requires At(before, State(a, Admit(Some(1)), Setup(0), 1)) && a.holder == Free && !a.disconnectPending
    ensures At(steps, State(a.(holder := StoppingApp, log := a.log + [Admitted(StopRequest)]), Admit(Some(1)),
                            Setup(0), 1))
  {
    steps := Then(before, State(a, Admit(Some(1)), Setup(0), 1), TryRequest(StopRequest));
  }
}
