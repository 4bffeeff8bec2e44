// What holds of every run of StreamSession, stated on the recorded words.
module StreamTheorems {
  import opened Options
  import opened StreamFlags
  import opened StreamSession

  function Count(w: Word, a: Action): nat {
    if w == [] then 0 else Count(w[..|w| - 1], a) + if w[|w| - 1] == a then 1 else 0
  }

  function Events(w: Word): Word {
    if w == [] then []
    else if w[|w| - 1].Emit? then Events(w[..|w| - 1]) + [w[|w| - 1]]
    else Events(w[..|w| - 1])
  }

  // All that happened, in order.
  function Flatten(words: seq<Word>): Word {
    if words == [] then [] else Flatten(words[..|words| - 1]) + words[|words| - 1]
  }

  function Trace(s: System): Word {
    Flatten(s.past) + s.word
  }

  /* ---------- Reading a word and its record ---------- */

  predicate Once(a: Action) {
    || a == LiStart || a == Interrupted || a == Committed || a == LiStop
    || a == InputStart || a == InputStop
  }

  predicate Marked(o: Seen, a: Action)
    requires Once(a) || a == Stage || a == StopAsked
  {
    match a
    case LiStart => o.liStart
    case Stage => o.stage
    case StopAsked => o.stopAsked
    case Interrupted => o.interrupted
    case Committed => o.committed
    case LiStop => o.liStop
    case InputStart => o.inputStart
    case InputStop => o.inputStop
  }

  lemma MarkedStep(o: Seen, b: Action, a: Action)
    requires Once(a) || a == Stage || a == StopAsked
    ensures Marked(Observe(o, b), a) <==> Marked(o, a) || a == b
  {
  }

  lemma {:induction false} MarkedMeans(w: Word, a: Action)
    requires Once(a) || a == Stage || a == StopAsked
    ensures Marked(See(w), a) <==> a in w
  {
    if w != [] {
      var p, b := w[..|w| - 1], w[|w| - 1];
      MarkedMeans(p, a);
      MarkedStep(See(p), b, a);
      assert w == p + [b];
    }
  }

  lemma {:induction false} LawfulPrefix(id: nat, w: Word, n: nat)
    requires Lawful(id, w) && n <= |w|
    ensures Lawful(id, w[..n])
    ensures n < |w| ==> MayFollow(id, See(w[..n]), w[n])
    decreases |w|
  {
    if n == |w| {
      assert w[..n] == w;
    } else if n < |w| - 1 {
      LawfulPrefix(id, w[..|w| - 1], n);
      assert w[..|w| - 1][..n] == w[..n];
    }
  }

  lemma {:induction false} ReturnedMeans(id: nat, w: Word, r: int)
    requires Lawful(id, w)
    ensures See(w).returned == Some(r) <==> LiReturn(r) in w
  {
    if w != [] {
      var p, b := w[..|w| - 1], w[|w| - 1];
      LawfulPrefix(id, w, |w| - 1);
      ReturnedMeans(id, p, r);
      assert w == p + [b];
    }
  }

  lemma {:induction false} CountMarked(id: nat, w: Word, a: Action)
    requires Lawful(id, w) && Once(a)
    ensures Count(w, a) == if Marked(See(w), a) then 1 else 0
  {
    if w != [] {
      var p, b := w[..|w| - 1], w[|w| - 1];
      LawfulPrefix(id, w, |w| - 1);
      CountMarked(id, p, a);
      MarkedStep(See(p), b, a);
    }
  }

  // Each of these actions is done at most once in a session.
  lemma AtMostOnce(id: nat, w: Word, a: Action)
    requires Lawful(id, w) && Once(a)
    ensures Count(w, a) == if a in w then 1 else 0
    ensures Marked(See(w), a) <==> a in w
  {
    CountMarked(id, w, a);
    MarkedMeans(w, a);
  }

  // How the record of a lawful word constrains itself.
  predicate Sane(o: Seen) {
    && (o.returned.Some? || o.stage ==> o.liStart)
    && (o.committed ==> o.liStart)
    && (o.interrupted ==> o.stage && o.stopAsked)
    && (o.liStop ==> o.returned == Some(0))
    && (o.startedOut ==> o.inputStart)
    && (o.inputStart ==> o.committed)
    && (o.inputStop ==> o.inputStart)
    && (o.committed && o.returned.Some? ==> o.returned == Some(0) && o.inputStart)
    && (o.liStop && o.inputStart ==> o.inputStop)
    && (o.resultRead.Some? ==> o.liStop)
    && (o.terminal == Some(Stopped) ==> o.startedOut && o.liStop)
    && (o.terminal == Some(Failed) ==> !o.startedOut && !o.committed && (o.liStart ==> o.returned.Some?))
    && o.terminal != Some(Started)
    && (o.startedOut || o.terminal.Some? ==> o.admission == Some(true))
  }

  lemma {:induction false} LawfulSane(id: nat, w: Word)
    requires Lawful(id, w)
    ensures Sane(See(w))
  {
    if w != [] {
      LawfulPrefix(id, w, |w| - 1);
      LawfulSane(id, w[..|w| - 1]);
    }
  }

  /* ---------- One session ---------- */

  predicate EventsFit(id: nat, o: Seen, events: Word) {
    && |events| == (if o.startedOut then 1 else 0) + (if o.terminal.Some? then 1 else 0)
    && (o.startedOut ==> events[0] == Emit(Started, 0, id))
    && (o.terminal.Some? ==>
          var last := events[|events| - 1];
          last.Emit? && last.session == id && last.kind == o.terminal.value
          && (last.kind == Failed ==> last.result != 0))
  }

  lemma {:induction false} LawfulEvents(id: nat, w: Word)
    requires Lawful(id, w)
    ensures EventsFit(id, See(w), Events(w))
  {
    if w != [] {
      LawfulPrefix(id, w, |w| - 1);
      LawfulEvents(id, w[..|w| - 1]);
    }
  }

  // A closed word ends with the step that closed it, and nothing else closed it.
  lemma ClosedLast(id: nat, w: Word)
    requires Complete(id, w)
    ensures w != [] && (w[|w| - 1] == Released || w[|w| - 1] == Abandoned)
    ensures MayFollow(id, See(w[..|w| - 1]), w[|w| - 1])
  {
    LawfulPrefix(id, w, |w| - 1);
  }

  ghost predicate Failure(id: nat, events: Word) {
    exists r :: r != 0 && events == [Emit(Failed, r, id)]
  }

  ghost predicate Streamed(id: nat, events: Word) {
    exists r :: events == [Emit(Started, 0, id), Emit(Stopped, r, id)]
  }

  // The events of an accepted session are STARTED and then STOPPED, if STARTED was
  // committed, and otherwise exactly one FAILED, all through the session's own callback.
  // A session whose thread could not be created, or that has no callback, publishes nothing.
  lemma SessionEvents(id: nat, w: Word)
    requires Complete(id, w)
    ensures if w[|w| - 1] == Released && See(w).admission == Some(true)
            then if Committed in w then Streamed(id, Events(w)) else Failure(id, Events(w))
            else Events(w) == []
  {
    ClosedLast(id, w);
    MarkedMeans(w, Committed);
    LawfulEvents(id, w);
    LawfulSane(id, w);
    var events := Events(w);
    if w[|w| - 1] == Released && See(w).admission == Some(true) {
      if See(w).startedOut {
        assert events == [Emit(Started, 0, id), Emit(Stopped, events[1].result, id)];
      } else {
        assert events == [Emit(Failed, events[0].result, id)];
      }
    }
  }

  predicate WellStopped(o: Seen) {
    && (o.liStop <==> o.returned == Some(0))
    && (o.inputStart <==> o.committed)
    && (o.inputStop <==> o.committed)
    && (o.committed ==> o.returned == Some(0))
  }

  lemma ClosedIsStopped(id: nat, w: Word)
    requires Complete(id, w)
    ensures WellStopped(See(w))
  {
    ClosedLast(id, w);
    LawfulSane(id, w);
  }

  // LiStopConnection runs exactly once for a session whose LiStartConnection returned
  // zero and never for another. Input runs exactly when STARTED was committed, and is
  // stopped again.
  lemma StopsExactlyOnce(id: nat, w: Word)
    requires Complete(id, w)
    ensures Count(w, LiStop) == if LiReturn(0) in w then 1 else 0
    ensures Count(w, InputStart) == Count(w, InputStop) == Count(w, Committed) <= 1
    ensures Committed in w ==> LiReturn(0) in w
  {
    ClosedIsStopped(id, w);
    AtMostOnce(id, w, LiStop);
    AtMostOnce(id, w, InputStart);
    AtMostOnce(id, w, InputStop);
    AtMostOnce(id, w, Committed);
    ReturnedMeans(id, w, 0);
  }

  predicate StopWon(o: Seen) {
    o.stopAsked && !o.committed
  }

  lemma StopWonOnce(id: nat, w: Word, k: nat)
    requires Lawful(id, w) && k < |w| && StopWon(See(w[..k]))
    ensures StopWon(See(w[..k + 1]))
  {
    LawfulPrefix(id, w, k);
    SeeAppend(w[..k], w[k]);
    assert w[..k + 1] == w[..k] + [w[k]];
  }

  lemma {:induction false} StopWonStays(id: nat, w: Word, n: nat, m: nat)
    requires Lawful(id, w) && n <= m <= |w| && StopWon(See(w[..n]))
    ensures StopWon(See(w[..m]))
    decreases m - n
  {
    if n < m {
      StopWonOnce(id, w, n);
      StopWonStays(id, w, n + 1, m);
    }
  }

  lemma StopWonToTheEnd(id: nat, w: Word, n: nat)
    requires Lawful(id, w) && n <= |w| && StopWon(See(w[..n]))
    ensures StopWon(See(w)) && Sane(See(w))
  {
    StopWonStays(id, w, n, |w|);
    assert w[..|w|] == w;
    LawfulSane(id, w);
  }

  lemma NoEventAfterStop(id: nat, w: Word)
    requires Lawful(id, w) && StopWon(See(w)) && Sane(See(w))
    ensures forall e :: e in Events(w) ==> e.Emit? && e.kind != Started
  {
    LawfulEvents(id, w);
    FitWithoutStart(id, See(w), Events(w));
  }

  // A session in which a stop came before the commit.
  lemma NoCommitAfterStop(id: nat, w: Word, n: nat)
    requires Lawful(id, w) && n <= |w| && StopWon(See(w[..n]))
    ensures Committed !in w && InputStart !in w
    ensures forall e :: e in Events(w) ==> e.Emit? && e.kind != Started
  {
    StopWonToTheEnd(id, w, n);
    MarkedMeans(w, Committed);
    MarkedMeans(w, InputStart);
    NoEventAfterStop(id, w);
  }

  lemma FitWithoutStart(id: nat, o: Seen, events: Word)
    requires EventsFit(id, o, events) && Sane(o) && !o.startedOut
    ensures forall e :: e in events ==> e.Emit? && e.kind != Started
  {
    forall e | e in events
      ensures e == events[|events| - 1]
    {
    }
  }

  lemma StopWonAt(w: Word, i: nat)
    requires i < |w| && w[i] == StopAsked && Committed !in w[..i]
    ensures StopWon(See(w[..i + 1]))
  {
    MarkedMeans(w[..i], Committed);
    SeeAppend(w[..i], w[i]);
    assert w[..i + 1] == w[..i] + [w[i]];
  }

  // A stop that wins before the started commit excludes the commit, the input and the
  // STARTED event of that session.
  lemma {:induction false} StopWins(id: nat, w: Word, i: nat)
    requires Lawful(id, w) && i < |w| && w[i] == StopAsked && Committed !in w[..i]
    ensures Committed !in w && InputStart !in w
    ensures forall e :: e in Events(w) ==> e.Emit? && e.kind != Started
  {
    StopWonAt(w, i);
    NoCommitAfterStop(id, w, i + 1);
  }

  lemma {:induction false} InterruptFollows(id: nat, w: Word, i: nat)
    requires Lawful(id, w) && i < |w| && w[i] == Interrupted
    ensures StopAsked in w[..i] && Stage in w[..i] && LiReturn(0) !in w[..i] && StopWon(See(w[..i]))
  {
    LawfulPrefix(id, w, i);
    MarkedMeans(w[..i], StopAsked);
    MarkedMeans(w[..i], Stage);
    ReturnedMeans(id, w[..i], 0);
  }

  // LiInterruptConnection is sent at most once, after a stop was asked and a stage
  // published, and before any commit or successful return; a session that was
  // interrupted never commits.
  lemma {:induction false} InterruptWindow(id: nat, w: Word, i: nat)
    requires Lawful(id, w) && i < |w| && w[i] == Interrupted
    ensures StopAsked in w[..i] && Stage in w[..i] && LiReturn(0) !in w[..i]
    ensures Count(w, Interrupted) == 1 && Committed !in w
  {
    InterruptFollows(id, w, i);
    AtMostOnce(id, w, Interrupted);
    NoCommitAfterStop(id, w, i);
  }

  /* ---------- What the terminal event tells ---------- */

  // The result of the last lost connection, or 0
  function LastLoss(w: Word): int {
    if w == [] then 0 else if w[|w| - 1].Terminated? then w[|w| - 1].result else LastLoss(w[..|w| - 1])
  }

  lemma {:induction false} LossMeans(w: Word)
    ensures LossOf(See(w)) == LastLoss(w)
    ensures See(w).lost.Some? <==> exists a :: a in w && a.Terminated?
  {
    if w != [] {
      var p, b := w[..|w| - 1], w[|w| - 1];
      LossMeans(p);
      assert w == p + [b] && b in w;
    }
  }

  lemma {:induction false} ResultMeans(id: nat, w: Word, r: int) returns (k: nat)
    requires Lawful(id, w) && See(w).resultRead == Some(r)
    ensures k < |w| && w[k] == ResultRead(r) && r == LastLoss(w[..k]) && LiStop in w[..k]
  {
    var p, b := w[..|w| - 1], w[|w| - 1];
    LawfulPrefix(id, w, |w| - 1);
    if b.ResultRead? {
      k := |w| - 1;
      LossMeans(p);
      MarkedMeans(p, LiStop);
    } else {
      k := ResultMeans(id, p, r);
      assert p[..k] == w[..k];
    }
  }

  // STOPPED tells the result that was read after the transport was stopped: that of the
  // last connection lost until then, or 0 if none was.
  lemma {:induction false} StoppedTells(id: nat, w: Word, i: nat) returns (k: nat)
    requires Lawful(id, w) && i < |w| && w[i].Emit? && w[i].kind == Stopped
    ensures k < i && w[k] == ResultRead(w[i].result) && LiStop in w[..k] && w[i].result == LastLoss(w[..k])
  {
    LawfulPrefix(id, w, i);
    k := ResultMeans(id, w[..i], w[i].result);
    assert w[..i][..k] == w[..k];
  }

  lemma {:induction false} SetupMeans(id: nat, w: Word, r: int)
    requires Lawful(id, w)
    ensures See(w).setupFailed == Some(r) <==> SetupFailed(r) in w
  {
    if w != [] {
      var p, b := w[..|w| - 1], w[|w| - 1];
      LawfulPrefix(id, w, |w| - 1);
      SetupMeans(id, p, r);
      if See(p).setupFailed.None? {
        SetupOnce(id, p);
      }
      assert w == p + [b];
    }
  }

  lemma {:induction false} SetupOnce(id: nat, w: Word)
    requires Lawful(id, w) && See(w).setupFailed.None?
    ensures forall r :: SetupFailed(r) !in w
  {
    if w != [] {
      var p, b := w[..|w| - 1], w[|w| - 1];
      LawfulPrefix(id, w, |w| - 1);
      SetupOnce(id, p);
      assert w == p + [b];
    }
  }

  // FAILED tells -7 for a startup that was interrupted, the result of LiStartConnection or
  // of the setup that failed, or -7 for a stop that came before LiStartConnection.
  lemma {:induction false} FailedTells(id: nat, w: Word, i: nat)
    requires Lawful(id, w) && i < |w| && w[i].Emit? && w[i].kind == Failed
    ensures var before, r := w[..i], w[i].result;
      && r != 0
      && (|| (Interrupted in before && r == CANCELLED)
          || (Interrupted !in before && LiReturn(r) in before)
          || (LiStart !in before && SetupFailed(r) in before)
          || (LiStart !in before && (forall q :: SetupFailed(q) !in before) && StopAsked in before && r == CANCELLED))
  {
    var before, r := w[..i], w[i].result;
    LawfulPrefix(id, w, i);
    MarkedMeans(before, Interrupted);
    MarkedMeans(before, LiStart);
    MarkedMeans(before, StopAsked);
    ReturnedMeans(id, before, r);
    SetupMeans(id, before, r);
    if See(before).setupFailed.None? {
      SetupOnce(id, before);
    }
  }

  /* ---------- Every run ---------- */

  lemma EventsConcat(v: Word, w: Word)
    ensures Events(v + w) == Events(v) + Events(w)
  {
    if w == [] {
      assert v + w == v;
    } else {
      var n := |v + w| - 1;
      assert (v + w)[..n] == v + w[..|w| - 1];
      EventsConcat(v, w[..|w| - 1]);
    }
  }

  // The events of whole finished sessions, one after the other, in admission order.
  function EventsOfEach(words: seq<Word>): Word {
    if words == [] then [] else EventsOfEach(words[..|words| - 1]) + Events(words[|words| - 1])
  }

  lemma {:induction false} EventsFlatten(words: seq<Word>)
    ensures Events(Flatten(words)) == EventsOfEach(words)
  {
    if words != [] {
      EventsFlatten(words[..|words| - 1]);
      EventsConcat(Flatten(words[..|words| - 1]), words[|words| - 1]);
    }
  }

  // The main theorem: in every interleaving, the trace is one lawful word per session,
  // and its events are the sessions' events one after the other. What SessionEvents,
  // StopsExactlyOnce, InterruptWindow and StopWins say holds of each of them.
  lemma EveryRun(steps: seq<Step>)
    requires Run(steps).Some?
    ensures var s := Run(steps).value;
      && Events(Trace(s)) == EventsOfEach(s.past) + Events(s.word)
      && Lawful(|s.past|, s.word)
      && (forall id :: 0 <= id < |s.past| ==> Complete(id, s.past[id]))
      && (!s.flags.running ==> s.word == [])
  {
    RunKeeps(steps);
    var s := Run(steps).value;
    EventsFlatten(s.past);
    EventsConcat(Flatten(s.past), s.word);
  }

  lemma InvInterrupts(id: nat, f: Flags, owner: Owner, o: Seen)
    requires SessionInv(id, f, owner, o) && owner != NoOwner && Sane(o)
    ensures o.stage && StopWon(o) && o.returned.None? ==> o.interrupted
  {
  }

  // The cancel race is closed: while LiStartConnection runs, once a stage was published,
  // a stop that comes before the commit has been turned into an interrupt, whichever
  // of the two came first.
  lemma NoLostCancel(steps: seq<Step>)
    requires Run(steps).Some?
    ensures var w := Run(steps).value.word;
      Stage in w && StopAsked in w && Committed !in w && (forall r :: LiReturn(r) !in w)
      ==> Interrupted in w
  {
    RunKeeps(steps);
    var s := Run(steps).value;
    var id, w := |s.past|, s.word;
    LawfulSane(id, w);
    if s.owner != NoOwner {
      InvInterrupts(id, s.flags, s.owner, See(w));
    }
    MarkedMeans(w, Stage);
    MarkedMeans(w, StopAsked);
    MarkedMeans(w, Committed);
    MarkedMeans(w, Interrupted);
    if See(w).returned.Some? {
      ReturnedMeans(id, w, See(w).returned.value);
    }
  }

  lemma Finishes(id: nat, f: Flags, owner: Owner, o: Seen)
    requires SessionInv(id, f, owner, o) && owner.LiReturned?
    ensures StartupOutcome(f, owner.result) == 0 <==> o.committed
    ensures var next := EffectOf(id, f, owner, FinishStart).owner;
      && (next == Polling <==> o.committed) && next != NoOwner
      && (next == StoppingCancelled <==> !o.committed && o.returned == Some(0))
  {
  }

  // finish_common_startup returns zero exactly when STARTED was committed, and then the
  // owner streams. A transport that came up without the commit is stopped.
  lemma StartupSucceedsIffCommitted(steps: seq<Step>)
    requires Run(steps).Some? && Run(steps).value.owner.LiReturned?
    ensures var s := Run(steps).value;
      && (StartupOutcome(s.flags, s.owner.result) == 0 <==> Committed in s.word)
      && (Do(s, FinishStart).owner == Polling <==> Committed in s.word)
      && (Do(s, FinishStart).owner == StoppingCancelled <==> Committed !in s.word && LiReturn(0) in s.word)
  {
    RunKeeps(steps);
    var s := Run(steps).value;
    MarkedMeans(s.word, Committed);
    ReturnedMeans(|s.past|, s.word, 0);
    Finishes(|s.past|, s.flags, s.owner, See(s.word));
  }

  /* ---------- Stopping ---------- */

  // What ends a session: a stop request or a lost connection
  predicate Ends(a: Action) {
    a.StopAsked? || a.Terminated?
  }

  ghost predicate Ending(w: Word) {
    exists a :: a in w && Ends(a)
  }

  lemma EndingMeans(w: Word)
    ensures Ending(w) <==> See(w).stopAsked || See(w).lost.Some?
  {
    MarkedMeans(w, StopAsked);
    LossMeans(w);
    if See(w).stopAsked {
      assert Ends(StopAsked);
    }
  }

  lemma Recorded(s: System, step: Step)
    requires Can(s.owner, step) && EffectOf(|s.past|, s.flags, s.owner, step).owner != NoOwner
    ensures Do(s, step).word == s.word + NotesOf(EffectOf(|s.past|, s.flags, s.owner, step).notes)
  {
  }

  lemma Heard(id: nat, f: Flags, owner: Owner, result: int)
    requires f.running <==> owner != NoOwner
    ensures f.running ==> NotesOf(EffectOf(id, f, owner, Termination(result)).notes) == [Terminated(result)]
    ensures f.running ==> StopAsked in NotesOf(EffectOf(id, f, owner, RequestStop).notes)
    ensures !f.running ==> EffectOf(id, f, owner, RequestStop) == Effect(f, owner, Silent)
    ensures !f.running ==> EffectOf(id, f, owner, Termination(result)) == Effect(f, owner, Silent)
  {
  }

  // Whoever asks a running session to stop, or loses its connection, is heard.
  lemma RequestsAreHeard(steps: seq<Step>, result: int)
    requires Run(steps).Some?
    ensures var s := Run(steps).value;
      if s.owner == NoOwner then Do(s, RequestStop) == s && Do(s, Termination(result)) == s
      else StopAsked in Do(s, RequestStop).word && Do(s, Termination(result)).word == s.word + [Terminated(result)]
  {
    RunKeeps(steps);
    var s := Run(steps).value;
    Heard(|s.past|, s.flags, s.owner, result);
    if s.owner == NoOwner {
      assert s.word + [] == s.word;
    } else {
      Recorded(s, RequestStop);
      Recorded(s, Termination(result));
    }
  }

  // A streaming owner goes on to stop its session exactly when that was asked to stop or
  // its connection was lost.
  lemma PollEnds(steps: seq<Step>)
    requires Run(steps).Some? && Run(steps).value.owner == Polling
    ensures var s := Run(steps).value;
      Do(s, Poll).owner == if Ending(s.word) then StoppingInput else Polling
  {
    RunKeeps(steps);
    EndingMeans(Run(steps).value.word);
  }

  // A setup goes on exactly when no stop was asked, and is cancelled otherwise.
  lemma CheckEnds(steps: seq<Step>)
    requires Run(steps).Some? && Run(steps).value.owner.Setup?
    ensures var s := Run(steps).value;
      Do(s, CheckCancel).owner == if StopAsked in s.word then Reading(Failed, CANCELLED)
                                  else if s.owner.passed == CANCEL_CHECKS - 1 then CallLi
                                  else Setup(s.owner.passed + 1)
  {
    RunKeeps(steps);
    MarkedMeans(Run(steps).value.word, StopAsked);
  }

  // The checks of a setup since its owner was created
  function Checks(steps: seq<Step>): nat {
    if steps == [] then 0
    else
      var before, step := Checks(steps[..|steps| - 1]), steps[|steps| - 1];
      if step.CreateOk? then 0 else if step.CheckCancel? then before + 1 else before
  }

  lemma CheckCounts(id: nat, f: Flags, owner: Owner, step: Step)
    requires Can(owner, step) && (f.running <==> owner != NoOwner)
    ensures var next := EffectOf(id, f, owner, step).owner;
      && (next.Setup? ==>
            if step.CreateOk? then next.passed == 0
            else owner.Setup? && next.passed == owner.passed + if step.CheckCancel? then 1 else 0)
      && (next.CallLi? ==>
            if owner.Setup? then step.CheckCancel? && owner.passed == CANCEL_CHECKS - 1
            else owner.CallLi? && !step.CreateOk? && !step.CheckCancel?)
  {
  }

  // LiStartConnection is called only after seven checks, so that CheckEnds holds seven times.
  lemma {:induction false} SevenChecks(steps: seq<Step>)
    requires Run(steps).Some?
    ensures var owner := Run(steps).value.owner;
      && (owner.Setup? ==> owner.passed == Checks(steps))
      && (owner.CallLi? ==> Checks(steps) == 7)
  {
    if steps != [] {
      var before := Run(steps[..|steps| - 1]).value;
      SevenChecks(steps[..|steps| - 1]);
      RunKeeps(steps[..|steps| - 1]);
      CheckCounts(|before.past|, before.flags, before.owner, steps[|steps| - 1]);
    }
  }

  // A connection that comes up is committed exactly when no stop was asked.
  lemma CommitsUnlessStopped(steps: seq<Step>)
    requires Run(steps).Some? && Run(steps).value.owner == InLi(true, false)
    ensures var s := Run(steps).value;
      Do(s, ConnectionReady).word == if StopAsked in s.word then s.word else s.word + [Committed]
  {
    RunKeeps(steps);
    var s := Run(steps).value;
    MarkedMeans(s.word, StopAsked);
    assert s.word + [] == s.word;
  }

  // How many steps of its own an owner has left at most, apart from stages of the
  // transport and from polling without a stop.
  function Left(owner: Owner): int {
    match owner
    case NoOwner => 0
    case Releasing => 1
    case InCallback(kind, _) => if kind == Started then 11 else 2
    case Calling(kind, _, _) => if kind == Started then 12 else 3
    case Reading(kind, _) => if kind == Started then 13 else 4
    case ReadingResult => 5
    case StoppingCancelled => 5
    case StoppingTransport => 6
    case StoppingInput => 7
    case Polling => 8
    case LiReturned(_) => 9
    case InLi(_, ready) => if ready then 10 else 15
    case StartingInput => 14
    case CallLi => 16
    case Setup(passed) => 17 + CANCEL_CHECKS - passed
    case Creating => 18 + CANCEL_CHECKS
  }

  predicate OwnStep(step: Step) {
    !Outside(step) && !step.Start? && !step.StageStarting?
  }

  // An owner can always take a step of its own.
  lemma OwnerCanStep(owner: Owner)
    requires owner != NoOwner
    ensures exists step :: Can(owner, step) && OwnStep(step)
  {
    var step :=
      match owner
      case Creating => CreateOk
      case Setup(_) => CheckCancel
      case CallLi => EnterLi
      case InLi(_, ready) => if ready then LiSucceeds else LiFails(1)
      case StartingInput => InputStarts
      case LiReturned(_) => FinishStart
      case StoppingCancelled => StopCancelled
      case Polling => Poll
      case StoppingInput => InputStops
      case StoppingTransport => TransportStops
      case ReadingResult => ReadResult
      case Reading(_, _) => ReadCallback
      case Calling(_, _, _) => CallCallback
      case InCallback(_, _) => CallbackReturns
      case _ => ReleaseOwner;
    assert Can(owner, step) && OwnStep(step);
  }

  function OwnSteps(steps: seq<Step>): nat {
    if steps == [] then 0
    else OwnSteps(steps[..|steps| - 1]) + if OwnStep(steps[|steps| - 1]) then 1 else 0
  }

  predicate IsEnding(f: Flags, owner: Owner) {
    owner != NoOwner && f.running && f.stopRequested && (owner.Setup? ==> owner.passed < CANCEL_CHECKS)
  }

  lemma EndingFlags(id: nat, f: Flags, owner: Owner, o: Seen)
    requires SessionInv(id, f, owner, o) && owner != NoOwner
    ensures o.stopAsked || o.lost.Some? ==> IsEnding(f, owner)
  {
  }

  lemma OwnerGetsOn(id: nat, f: Flags, owner: Owner, step: Step)
    requires Can(owner, step) && IsEnding(f, owner)
    ensures Left(EffectOf(id, f, owner, step).owner) <= Left(owner) - if OwnStep(step) then 1 else 0
  {
    if !OwnStep(step) {
      OthersStay(id, f, owner, step);
    }
  }

  lemma OthersStay(id: nat, f: Flags, owner: Owner, step: Step)
    requires Can(owner, step) && IsEnding(f, owner) && !OwnStep(step)
    ensures Left(EffectOf(id, f, owner, step).owner) == Left(owner)
  {
  }

  lemma StepGetsOn(s: System, step: Step)
    requires Inv(s) && Can(s.owner, step) && s.owner != NoOwner && Ending(s.word)
    ensures Left(Do(s, step).owner) <= Left(s.owner) - if OwnStep(step) then 1 else 0
    ensures |Do(s, step).past| == |s.past| ==> Do(s, step).owner != NoOwner && Ending(Do(s, step).word)
  {
    EndingMeans(s.word);
    EndingFlags(|s.past|, s.flags, s.owner, See(s.word));
    OwnerGetsOn(|s.past|, s.flags, s.owner, step);
    var a :| a in s.word && Ends(a);
    if |Do(s, step).past| == |s.past| {
      Recorded(s, step);
      assert a in Do(s, step).word;
    }
  }

  lemma RunSplits(steps: seq<Step>, more: seq<Step>)
    requires Run(steps + more).Some? && more != []
    ensures var before, last := Run(steps + more[..|more| - 1]), more[|more| - 1];
      before.Some? && Can(before.value.owner, last) && Run(steps + more).value == Do(before.value, last)
  {
    assert (steps + more)[..|steps + more| - 1] == steps + more[..|more| - 1];
  }

  // From `s` to `t` the session is the same, and its owner took `n` steps, or it is over.
  ghost predicate GoneOn(s: System, t: System, n: nat) {
    && |s.past| <= |t.past|
    && (|s.past| == |t.past| ==> t.owner != NoOwner && Ending(t.word) && n + Left(t.owner) <= Left(s.owner))
  }

  lemma GoneOnMore(s: System, t: System, n: nat, step: Step)
    requires GoneOn(s, t, n) && Inv(t) && Can(t.owner, step)
    ensures GoneOn(s, Do(t, step), n + if OwnStep(step) then 1 else 0)
  {
    if |s.past| == |t.past| {
      StepGetsOn(t, step);
    }
  }

  // Once it was asked to stop, or its connection was lost, a session ends after at most
  // `Left` more steps of its owner, whatever other threads do.
  lemma {:induction false} EndsInTime(steps: seq<Step>, more: seq<Step>)
    requires Run(steps).Some? && Run(steps).value.owner != NoOwner && Ending(Run(steps).value.word)
    requires Run(steps + more).Some?
    ensures GoneOn(Run(steps).value, Run(steps + more).value, OwnSteps(more))
  {
    if more == [] {
      assert steps + more == steps;
    } else {
      var n := |more| - 1;
      RunSplits(steps, more);
      RunKeeps(steps + more[..n]);
      EndsInTime(steps, more[..n]);
      GoneOnMore(Run(steps).value, Run(steps + more[..n]).value, OwnSteps(more[..n]), more[n]);
    }
  }
}
