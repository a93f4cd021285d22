/** The part of the invariant that mentions no instant. It survives every transition whatever
    the clock reads, so it also holds when requests overtake each other. */
module SessionShape {
  import opened Basics
  import opened SessionTypes
  import opened SessionEngine
  import opened SessionInvariant
  import opened SessionVerbs

  /** The columns that go with a status. */
  predicate RowShape(p: Phase) {
    && (p.IsLive() ==> p.started.Some?)
    && (p.status.Paused? ==> !p.kind.Break? && p.pauseStarted.Some?)
    && (p.Terminal() ==> p.ended.Some?)
  }

  ghost predicate RowsShaped(s: Session) {
    PlanOk(s) && Ordered(s.phases) && forall i :: 0 <= i < |s.phases| ==> RowShape(s.phases[i])
  }

  ghost predicate Shape(s: Session) { RowsShaped(s) && StatusOk(s) }

  lemma InvHasShape(s: Session, c: Instant)
    requires Inv(s, c)
    ensures Shape(s)
  {
    forall i | 0 <= i < |s.phases| ensures RowShape(s.phases[i]) { assert PhaseOk(s, s.phases[i], c); }
  }

  // --- One row changes ---------------------------------------------------------------

  /** Phase k, between terminal and pending ones, may become p. */
  ghost predicate Takes(s: Session, k: nat, p: Phase) {
    && k < |s.phases|
    && p.seqNo == s.phases[k].seqNo && p.kind == s.phases[k].kind && p.planned == s.phases[k].planned
    && RowShape(p) && !p.status.Pending?
    && (forall i :: 0 <= i < k ==> s.phases[i].Terminal())
    && (forall j :: k < j < |s.phases| ==> s.phases[j].status.Pending?)
  }

  lemma TakesKeeps(s: Session, k: nat, p: Phase)
    requires RowsShaped(s) && Takes(s, k, p)
    ensures RowsShaped(With(s, k, p)) && SamePlan(s, With(s, k, p))
  {
    PlanKept(s, With(s, k, p));
  }

  lemma LiveSplits(s: Session, k: nat)
    requires Shape(s) && k < |s.phases| && s.phases[k].IsLive()
    ensures s.status.Running? && LiveIndex(s.phases) == k && RowShape(s.phases[k])
    ensures forall i :: 0 <= i < k ==> s.phases[i].Terminal()
    ensures forall j :: k < j < |s.phases| ==> s.phases[j].status.Pending?
  {}

  lemma PendingSplits(s: Session, n: nat)
    requires Ordered(s.phases) && n == NextPending(s.phases) < |s.phases|
    requires forall i :: 0 <= i < |s.phases| ==> !s.phases[i].IsLive()
    ensures forall i :: 0 <= i < n ==> s.phases[i].Terminal()
    ensures forall j :: n < j < |s.phases| ==> s.phases[j].status.Pending?
  {
    forall i | 0 <= i < n ensures s.phases[i].Terminal() { assert !s.phases[i].IsLive(); }
    forall j | n < j < |s.phases| ensures s.phases[j].status.Pending? { assert !s.phases[n].Terminal(); }
  }

  /** The session runs on with row k live, or cleanly over. */
  lemma RunsOn(s: Session, k: nat, p: Phase)
    requires Shape(s) && s.status.Running? && Takes(s, k, p)
    requires p.IsLive() || (CleanlyOver(p) && (p.kind.Focus? || p.kind.Break?))
    ensures Shape(With(s, k, p)) && SamePlan(s, With(s, k, p))
  {
    TakesKeeps(s, k, p);
  }

  // --- Closing -------------------------------------------------------------------------

  lemma CloseShapes(s: Session, status: SessionStatus, at: Instant)
    requires RowsShaped(s) && !status.Running? && forall i :: 0 <= i < |s.phases| ==> !s.phases[i].IsLive()
    requires status.Ended? && IsTimer(s) ==> CompletedFocusCount(s.phases) > 0
    ensures Shape(Close(s, status, at)) && SamePlan(s, Close(s, status, at))
  {
    var s' := Close(s, status, at);
    PlanKept(s, s');
    forall i | 0 <= i < |s.phases| ensures s'.phases[i].Terminal() && RowShape(s'.phases[i]) {
      assert RowShape(s.phases[i]) && !s.phases[i].IsLive();
    }
    if status.Ended? && IsTimer(s) { CloseCountsFocus(s.phases, at); }
  }

  /** Live phase k ends as p, which leaves nothing live. */
  lemma NothingLive(s: Session, k: nat, p: Phase, outcome: Option<RunOutcome>)
    requires Shape(s) && Takes(s, k, p) && p.Terminal()
    ensures
      var s1 := With(s, k, p).(outcome := outcome);
      && RowsShaped(s1) && SamePlan(s, s1)
      && (forall i :: 0 <= i < |s1.phases| ==> !s1.phases[i].IsLive())
      && (IsTimer(s1) <==> IsTimer(s))
  {
    TakesKeeps(s, k, p);
    PlanKept(s, With(s, k, p).(outcome := outcome));
  }

  lemma DieShapes(s: Session, k: nat, dead: Phase, outcome: Option<RunOutcome>, at: Instant)
    requires Shape(s) && Takes(s, k, dead) && dead.Terminal()
    ensures Shape(Die(s, k, dead, outcome, at)) && SamePlan(s, Die(s, k, dead, outcome, at))
  {
    hide RowsShaped, StatusOk;
    NothingLive(s, k, dead, outcome);
    CloseShapes(With(s, k, dead).(outcome := outcome), Dead, at);
  }

  /** A session closes by its own count: dead without a completed focus phase. */
  lemma StopShapes(s: Session, at: Instant)
    requires RowsShaped(s) && forall i :: 0 <= i < |s.phases| ==> !s.phases[i].IsLive()
    ensures
      var s' := Close(s, if CompletedFocusCount(s.phases) == 0 then Dead else Ended, at);
      Shape(s') && SamePlan(s, s')
  {
    hide RowsShaped, StatusOk, SamePlan;
    CloseShapes(s, if CompletedFocusCount(s.phases) == 0 then Dead else Ended, at);
  }

  // --- The loop -----------------------------------------------------------------------

  lemma NoneLive(ps: seq<Phase>)
    requires LiveIndex(ps) == |ps|
    ensures forall i :: 0 <= i < |ps| ==> !ps[i].IsLive()
  {}

  lemma AllOver(s: Session, at: Instant)
    requires Shape(s) && s.status.Running? && NextPending(s.phases) == |s.phases|
    requires forall i :: 0 <= i < |s.phases| ==> !s.phases[i].IsLive()
    ensures Shape(Close(s, Ended, at)) && SamePlan(s, Close(s, Ended, at))
  {
    if IsTimer(s) {
      var i :| 0 <= i < |s.phases| && s.phases[i].kind.Focus?;
      assert !s.phases[i].status.Pending? && !s.phases[i].IsLive();
      assert IsCompletedFocus(s.phases[i]);
    }
    CloseShapes(s, Ended, at);
  }

  lemma ResolveShapes(s: Session, lastEnd: Instant, now: Instant)
    requires Shape(s) && s.status.Running? && LiveIndex(s.phases) == |s.phases|
    ensures Shape(ResolveNoLive(s, lastEnd, now).session) && SamePlan(s, ResolveNoLive(s, lastEnd, now).session)
  {
    hide RowsShaped, StatusOk, CompletedFocusCount;
    NoneLive(s.phases);
    ResolveForm(s, lastEnd, now);
    if NextPending(s.phases) == |s.phases| {
      AllOver(s, lastEnd);
    } else if lastEnd + GRACE_SECONDS <= now {
      assert RowsShaped(s);
      StopShapes(s, lastEnd + GRACE_SECONDS);
    }
  }

  lemma StartShapes(s: Session, n: nat, at: Instant)
    requires Shape(s) && s.status.Running? && n == NextPending(s.phases) < |s.phases|
    requires forall i :: 0 <= i < |s.phases| ==> !s.phases[i].IsLive()
    ensures Shape(StartPhase(s, n, at).session) && SamePlan(s, StartPhase(s, n, at).session)
    ensures StartPhase(s, n, at).session.status.Running?
  {
    PendingSplits(s, n);
    RunsOn(s, n, StartedAt(s.phases[n], at));
  }

  /** Row k of a running timer is cleanly over. */
  lemma OverShapes(s: Session, k: nat, p: Phase)
    requires Shape(s) && k < |s.phases| && s.phases[k].IsLive() && (p.kind.Focus? || p.kind.Break?)
    requires Takes(s, k, p) && CleanlyOver(p)
    ensures Shape(With(s, k, p)) && SamePlan(s, With(s, k, p)) && With(s, k, p).status.Running?
    ensures forall i :: 0 <= i < |s.phases| ==> !With(s, k, p).phases[i].IsLive()
  {
    LiveSplits(s, k);
    RunsOn(s, k, p);
  }

  lemma CompletePhaseShapes(s: Session, k: nat, end: Instant)
    requires Shape(s) && k < |s.phases| && s.phases[k].status.Active?
    requires s.phases[k].kind.Focus? || s.phases[k].kind.Break?
    ensures Shape(CompletePhase(s, k, end).session) && SamePlan(s, CompletePhase(s, k, end).session)
    ensures CompletePhase(s, k, end).session.status.Running?
  {
    LiveSplits(s, k);
    var s1 := With(s, k, CompletedAt(s.phases[k], end));
    OverShapes(s, k, CompletedAt(s.phases[k], end));
    hide RowsShaped, StatusOk, Takes;
    var n := NextPending(s1.phases);
    if n < |s1.phases| && AutoStarts(s, s1.phases[n]) { StartShapes(s1, n, end); }
  }

  lemma OverflowShapes(s: Session, k: nat, dead: Phase, at: Instant)
    requires Shape(s) && k < |s.phases| && s.phases[k].IsLive()
    requires dead == s.phases[k].(status := Abandoned, ended := Some(at), paused := dead.paused, pauseStarted := None)
    ensures Shape(Overflow(s, k, dead, at).session) && SamePlan(s, Overflow(s, k, dead, at).session)
  {
    LiveSplits(s, k);
    DieShapes(s, k, dead, s.outcome, at);
  }

  /** A speedrun dies at `at`, with its open pause banked. */
  lemma BankedShapes(s: Session, k: nat, outcome: Option<RunOutcome>, at: Instant)
    requires Shape(s) && k < |s.phases| && s.phases[k].IsLive()
    ensures
      var s' := Die(s, k, BankOpenPause(s.phases[k], at).(status := Abandoned, ended := Some(at)), outcome, at);
      Shape(s') && SamePlan(s, s')
  {
    LiveSplits(s, k);
    DieShapes(s, k, BankOpenPause(s.phases[k], at).(status := Abandoned, ended := Some(at)), outcome, at);
  }

  lemma LiveTurnShapes(s: Session, k: nat, now: Instant)
    requires Shape(s) && k < |s.phases| && s.phases[k].IsLive()
    ensures Shape(LiveTurn(s, k, now).session) && SamePlan(s, LiveTurn(s, k, now).session)
  {
    hide Shape, SamePlan, CheckSpeedrunDeadline, CheckPauseOverflow;
    LiveRow(s, k);
    StaysSamePlan(s);
    var cur := s.phases[k];
    if cur.kind.Speedrun? {
      if CheckSpeedrunDeadline(s, k, now).Some? { DeadlineShapes(s, k, now); }
    } else if !cur.kind.Stopwatch? && cur.status.Paused? {
      PauseOverflowShapes(s, k, now);
    }
  }

  lemma StaysSamePlan(s: Session)
    ensures SamePlan(s, s)
  {}

  lemma LiveRow(s: Session, k: nat)
    requires Shape(s) && k < |s.phases| && s.phases[k].IsLive()
    ensures s.phases[k].started.Some? && (s.phases[k].status.Paused? ==> s.phases[k].pauseStarted.Some?)
  {
    LiveSplits(s, k);
  }

  lemma DeadlineShapes(s: Session, k: nat, now: Instant)
    requires Shape(s) && k < |s.phases| && s.phases[k].IsLive() && CheckSpeedrunDeadline(s, k, now).Some?
    ensures
      var s' := CheckSpeedrunDeadline(s, k, now).value.session;
      Shape(s') && SamePlan(s, s')
  {
    hide Shape, SamePlan, CheckSpeedrunDeadline, Die;
    LiveRow(s, k);
    DeadlineForm(s, k, now);
    BankedShapes(s, k, Some(RunOutcome(Miss, s.phases[k].planned, Some(Timeout), None, None)),
                 s.phases[k].started.value + s.phases[k].planned);
  }

  lemma PauseOverflowShapes(s: Session, k: nat, now: Instant)
    requires Shape(s) && k < |s.phases| && s.phases[k].status.Paused?
    ensures
      var s' := CheckPauseOverflow(s, k, now).session;
      Shape(s') && SamePlan(s, s')
  {
    hide Shape, SamePlan, Die;
    LiveRow(s, k);
    StaysSamePlan(s);
    var cur := s.phases[k];
    if cur.paused + PausedFor(cur, now) > s.budgetSeconds {
      OverflowShapes(s, k, Overflown(cur, CrossedAt(s, k), now), CrossedAt(s, k));
    }
  }

  lemma {:induction false} EvaluateFromShapes(s: Session, lastEnd: Instant, now: Instant)
    requires Shape(s) && s.status.Running?
    ensures Shape(EvaluateFrom(s, lastEnd, now).session) && SamePlan(s, EvaluateFrom(s, lastEnd, now).session)
    decreases OpenSet(s.phases)
  {
    hide Shape, CompletePhase, ResolveNoLive, LiveTurn, PhaseEnd, OpenSet;
    var k := LiveIndex(s.phases);
    if k == |s.phases| {
      ResolveShapes(s, lastEnd, now);
    } else if Elapsed(s, k, now) {
      var m := CompletePhase(s, k, PhaseEnd(s.phases[k], now));
      CompletePhaseShapes(s, k, PhaseEnd(s.phases[k], now));
      CompletionCloses(s, k, PhaseEnd(s.phases[k], now));
      EvaluateFromShapes(m.session, PhaseEnd(s.phases[k], now), now);
      LoopTurn(s, k, lastEnd, now);
    } else {
      LoopStops(s, k, lastEnd, now);
      LiveTurnShapes(s, k, now);
    }
  }

  /** Evaluating keeps the shape, at any instant. */
  lemma EvaluateShapes(s: Session, now: Instant)
    requires Shape(s)
    ensures Shape(Evaluate(s, now).session) && SamePlan(s, Evaluate(s, now).session)
  {
    if s.status.Running? { EvaluateFromShapes(s, LastEnd(s.phases, s.startedAt), now); }
  }

  // --- The verbs ------------------------------------------------------------------------

  lemma PauseShapes(s: Session, now: Instant)
    requires Shape(s) && Pause(s, now).Some?
    ensures Shape(Pause(s, now).value.session) && SamePlan(s, Pause(s, now).value.session)
  {
    var k := LiveIndex(s.phases);
    LiveSplits(s, k);
    var cur := s.phases[k];
    if cur.kind.Stopwatch? || cur.kind.Speedrun? || cur.pauseCount + 1 <= s.budgetCount {
      RunsOn(s, k, PausedAt(cur, now));
    } else {
      hide RowsShaped, StatusOk;
      OverflowShapes(s, k, cur.(status := Abandoned, ended := Some(now), pauseStarted := None), now);
    }
  }

  lemma ResumeShapes(s: Session, now: Instant)
    requires Shape(s) && Resume(s, now).Some?
    ensures Shape(Resume(s, now).value.session) && SamePlan(s, Resume(s, now).value.session)
  {
    var k := LiveIndex(s.phases);
    LiveSplits(s, k);
    var cur := s.phases[k];
    if cur.kind.Focus? && cur.paused + PausedFor(cur, now) > s.budgetSeconds {
      OverflowShapes(s, k, Overflown(cur, now, now), now);
    } else {
      RunsOn(s, k, ResumedAt(cur, now));
    }
  }

  lemma AdvanceShapes(s: Session, now: Instant)
    requires Shape(s) && s.status.Running? && Advance(s, now).Some?
    ensures Shape(Advance(s, now).value.session) && SamePlan(s, Advance(s, now).value.session)
  {
    var k := LiveIndex(s.phases);
    if k == |s.phases| {
      NoneLive(s.phases);
      StartShapes(s, NextPending(s.phases), now);
    } else {
      SkipBreakShapes(s, k, now);
    }
  }

  lemma SkipBreakShapes(s: Session, k: nat, now: Instant)
    requires Shape(s) && k == LiveIndex(s.phases) < |s.phases|
    requires s.phases[k].status.Active? && s.phases[k].kind.Break?
    ensures Advance(s, now).Some?
    ensures Shape(Advance(s, now).value.session) && SamePlan(s, Advance(s, now).value.session)
  {
    hide Shape, Advance, StartPhase;
    var s1 := With(s, k, SkippedAt(s.phases[k], now));
    SkippedShapes(s, k, now);
    AdvanceForm(s, k, now);
    if NextPending(s1.phases) < |s1.phases| {
      StartShapes(s1, NextPending(s1.phases), now);
    } else {
      AllOver(s1, now);
      NothingToSkip(s1.phases, now);
      assert Close(s1, Ended, now) == s1.(status := Ended, endedAt := Some(now));
    }
  }

  lemma SkippedShapes(s: Session, k: nat, now: Instant)
    requires Shape(s) && k < |s.phases| && s.phases[k].IsLive() && s.phases[k].kind.Break?
    ensures
      var s1 := With(s, k, SkippedAt(s.phases[k], now));
      && Shape(s1) && SamePlan(s, s1) && s1.status.Running?
      && forall i :: 0 <= i < |s1.phases| ==> !s1.phases[i].IsLive()
  {
    LiveSplits(s, k);
    OverShapes(s, k, SkippedAt(s.phases[k], now));
  }

  lemma StopVerbShapes(s: Session, now: Instant)
    requires Shape(s) && s.status.Running?
    ensures Shape(Stop(s, now).session) && SamePlan(s, Stop(s, now).session)
  {
    hide Stop, Die, CompletedFocusCount;
    var k := LiveIndex(s.phases);
    StopForm(s, k, now);
    if k == |s.phases| {
      NoneLive(s.phases);
      StopShapes(s, now);
    } else if s.phases[k].kind.Speedrun? {
      BankedShapes(s, k, Stop(s, now).session.outcome, now);
    } else {
      LiveSplits(s, k);
      StopLiveShapes(s, k, now);
    }
  }

  lemma StopLiveShapes(s: Session, k: nat, now: Instant)
    requires Shape(s) && k < |s.phases| && s.phases[k].IsLive() && !s.phases[k].kind.Speedrun?
    ensures s.phases[k].kind.Stopwatch? ==>
      var s' := Close(With(s, k, StoppedStopwatch(s.phases[k], now)), Ended, now);
      Shape(s') && SamePlan(s, s')
    ensures !s.phases[k].kind.Stopwatch? ==>
      var s1 := With(s, k, EndedByStop(s.phases[k], now));
      var s' := Close(s1, if CompletedFocusCount(s1.phases) == 0 then Dead else Ended, now);
      Shape(s') && SamePlan(s, s')
  {
    LiveSplits(s, k);
    if s.phases[k].kind.Stopwatch? {
      var p := StoppedStopwatch(s.phases[k], now);
      NothingLive(s, k, p, s.outcome);
      assert With(s, k, p) == With(s, k, p).(outcome := s.outcome);
      CloseShapes(With(s, k, p), Ended, now);
    } else {
      var p := EndedByStop(s.phases[k], now);
      NothingLive(s, k, p, s.outcome);
      assert With(s, k, p) == With(s, k, p).(outcome := s.outcome);
      StopShapes(With(s, k, p), now);
    }
  }

  lemma DoneShapes(s: Session, now: Instant, prior: Option<int>)
    requires Shape(s) && Done(s, now, prior).Some?
    ensures Shape(Done(s, now, prior).value.session) && SamePlan(s, Done(s, now, prior).value.session)
  {
    hide Shape, SamePlan, AbandonSpeedrun, FinishRun;
    var k := LiveIndex(s.phases);
    var elapsed := Max(0, now - OrElse(s.phases[k].started, now));
    var live := BankOpenPause(s.phases[k], now);
    AbandonShapes(s, k, now, elapsed, Timeout);
    FinishRunShapes(s, k, now, elapsed, prior);
  }

  lemma AbandonShapes(s: Session, k: nat, now: Instant, elapsed: int, reason: Reason)
    requires Shape(s) && k < |s.phases| && s.phases[k].IsLive()
    ensures
      var s' := AbandonSpeedrun(s, k, BankOpenPause(s.phases[k], now), now, elapsed, reason).session;
      Shape(s') && SamePlan(s, s')
  {
    hide Shape, SamePlan, Die;
    var m := AbandonSpeedrun(s, k, BankOpenPause(s.phases[k], now), now, elapsed, reason);
    var kind := SpeedrunType(s, BankOpenPause(s.phases[k], now));
    BankedShapes(s, k, Some(RunOutcome(if kind.TimeBoxed? then Miss else GivenUp, elapsed, Some(reason), None, None)), now);
  }

  lemma FinishRunShapes(s: Session, k: nat, now: Instant, elapsed: int, prior: Option<int>)
    requires Shape(s) && k < |s.phases| && s.phases[k].IsLive() && s.phases[k].kind.Speedrun?
    ensures
      var s' := FinishRun(s, k, BankOpenPause(s.phases[k], now), now, elapsed, prior).session;
      Shape(s') && SamePlan(s, s')
  {
    var p := FinishedAt(BankOpenPause(s.phases[k], now), elapsed, now);
    BankedTakes(s, k, elapsed, now);
    hide Shape, SamePlan, Takes, FinishedAt, BankOpenPause;
    var m := FinishRun(s, k, BankOpenPause(s.phases[k], now), now, elapsed, prior);
    FinishShapes(s, k, p, m.session.outcome, now);
  }

  lemma BankedTakes(s: Session, k: nat, elapsed: int, now: Instant)
    requires Shape(s) && k < |s.phases| && s.phases[k].IsLive()
    ensures
      var p := FinishedAt(BankOpenPause(s.phases[k], now), elapsed, now);
      Takes(s, k, p) && p.Terminal()
  {
    LiveSplits(s, k);
  }

  lemma FinishShapes(s: Session, k: nat, p: Phase, outcome: Option<RunOutcome>, now: Instant)
    requires Shape(s) && k < |s.phases| && s.phases[k].kind.Speedrun? && Takes(s, k, p) && p.Terminal()
    ensures
      var s' := With(s, k, p).(status := Ended, endedAt := Some(now), outcome := outcome);
      Shape(s') && SamePlan(s, s')
  {
    var s1 := With(s, k, p).(outcome := outcome);
    NothingLive(s, k, p, outcome);
    assert !IsTimer(s1);
    CloseShapes(s1, Ended, now);
    OnePhaseOnly(s, k);
    assert Close(s1, Ended, now) == s1.(status := Ended, endedAt := Some(now));
  }

  /** A speedrun has nothing besides its one phase. */
  lemma OnePhaseOnly(s: Session, k: nat)
    requires PlanOk(s) && k < |s.phases| && s.phases[k].kind.Speedrun?
    ensures |s.phases| == 1 && IsSpeedrun(s)
  {}

  /** Every verb keeps the shape, at any instant and on any session of that shape. */
  lemma VerbShapes(s: Session, v: Verb, now: Instant)
    requires Shape(s) && s.status.Running? && Apply(s, v, now).Some?
    ensures Shape(Apply(s, v, now).value.session) && SamePlan(s, Apply(s, v, now).value.session)
  {
    hide Shape, SamePlan, Pause, Resume, Advance, Stop, Done;
    match v
    case DoPause => PauseShapes(s, now);
    case DoResume => ResumeShapes(s, now);
    case DoAdvance => AdvanceShapes(s, now);
    case DoStop => StopVerbShapes(s, now);
    case DoFinish(prior) => DoneShapes(s, now, prior);
  }
}
