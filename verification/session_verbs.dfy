/** The user's verbs, applied right after an evaluation at the same instant. */
module SessionVerbs {
  import opened Basics
  import opened SessionTypes
  import opened SessionEngine
  import opened SessionInvariant
  import opened SessionPolling

  datatype Verb = DoPause | DoResume | DoAdvance | DoStop | DoFinish(prior: Option<int>)

  /** None is the ValueError of a verb that does not apply. */
  function Apply(s: Session, v: Verb, now: Instant): Option<Move> {
    match v
    case DoPause => Pause(s, now)
    case DoResume => Resume(s, now)
    case DoAdvance => Advance(s, now)
    case DoStop => Some(Stop(s, now))
    case DoFinish(prior) => Done(s, now, prior)
  }

  /** The clock has something to say about live phase k at `now`. */
  predicate Due(s: Session, k: nat, now: Instant)
    requires k < |s.phases|
  {
    var p := s.phases[k];
    match p.kind
    case Stopwatch => false
    case Speedrun => SpeedrunType(s, p).TimeBoxed? && OrElse(p.started, now) + p.planned <= now
    case _ =>
      if p.status.Paused? then p.paused + PausedFor(p, now) > s.budgetSeconds else PhaseEnd(p, now) <= now
  }

  lemma QuietIff(s: Session, k: nat, now: Instant)
    requires s.status.Running? && k == LiveIndex(s.phases) < |s.phases|
    ensures Quiet(s, now) <==> !Due(s, k, now)
  {
    var lastEnd := LastEnd(s.phases, s.startedAt);
    if Elapsed(s, k, now) { LoopTurn(s, k, lastEnd, now); }
  }

  // --- Guards that cannot fire ---------------------------------------------------

  /** After an evaluation at the same instant a resume never finds the seconds budget blown. */
  lemma ResumeNeverOverflows(s: Session, now: Instant)
    requires Inv(s, now) && s.status.Running? && Quiet(s, now)
    ensures Resume(s, now).Some? ==> Resume(s, now).value.session.status.Running?
  {
    var k := LiveIndex(s.phases);
    if k < |s.phases| { QuietIff(s, k, now); }
  }

  /** After an evaluation at the same instant a declared finish is never a timeout. */
  lemma DoneNeverTimesOut(s: Session, now: Instant, prior: Option<int>)
    requires Inv(s, now) && s.status.Running? && Quiet(s, now)
    ensures Done(s, now, prior).Some? ==> Done(s, now, prior).value.session.status.Ended?
  {
    var k := LiveIndex(s.phases);
    if k < |s.phases| {
      QuietIff(s, k, now);
      assert PhaseOk(s, s.phases[k], now);
    }
  }

  // --- Every verb keeps the invariant and leaves nothing due -------------------------

  /** What a verb must leave behind. */
  ghost predicate Settled(s: Session, s': Session, now: Instant) {
    Inv(s', now) && SamePlan(s, s') && Quiet(s', now)
  }

  /** Live phase k becomes p and the session runs on. */
  lemma GoesOn(s: Session, k: nat, p: Phase, now: Instant)
    requires Inv(s, now) && k < |s.phases| && s.phases[k].IsLive()
    requires Fits(s, k, p, now) && p.IsLive()
    requires !Due(With(s, k, p), k, now)
    ensures Settled(s, With(s, k, p), now)
  {
    ReplaceKeeps(s, k, p, now);
    ReplaceKeepsStatus(s, k, p, now);
    LiveIsFirst(With(s, k, p).phases, k);
    QuietIff(With(s, k, p), k, now);
  }

  lemma ReplaceKeepsStatus(s: Session, k: nat, p: Phase, now: Instant)
    requires Inv(s, now) && k < |s.phases| && s.phases[k].IsLive() && p.IsLive()
    ensures StatusOk(With(s, k, p)) && s.status.Running?
  {
    AroundLive(s, k, now);
  }

  lemma LiveIsFirst(ps: seq<Phase>, k: nat)
    requires k < |ps| && ps[k].IsLive() && forall i :: 0 <= i < k ==> ps[i].Terminal()
    ensures LiveIndex(ps) == k
  {}

  lemma PauseFits(s: Session, k: nat, now: Instant)
    requires Inv(s, now) && k < |s.phases| && s.phases[k].status.Active? && !s.phases[k].kind.Break?
    requires !Due(s, k, now)
    ensures s.phases[k].kind.Focus? ==> s.phases[k].pauseCount + 1 <= s.budgetCount ==>
      Fits(s, k, PausedAt(s.phases[k], now), now)
    ensures !s.phases[k].kind.Focus? ==> Fits(s, k, PausedAt(s.phases[k], now), now)
    ensures Fits(s, k, s.phases[k].(status := Abandoned, ended := Some(now), pauseStarted := None), now)
    ensures s.phases[k].started.Some? && s.phases[k].started.value <= now
  {
    AroundLive(s, k, now);
  }

  lemma PauseKeeps(s: Session, now: Instant)
    requires Inv(s, now) && s.status.Running? && Quiet(s, now) && Pause(s, now).Some?
    ensures Settled(s, Pause(s, now).value.session, now)
  {
    var k := LiveIndex(s.phases);
    QuietIff(s, k, now);
    PauseFits(s, k, now);
    var cur := s.phases[k];
    assert PhaseOk(s, cur, now);
    if cur.kind.Stopwatch? || cur.kind.Speedrun? || cur.pauseCount + 1 <= s.budgetCount {
      GoesOn(s, k, PausedAt(cur, now), now);
    } else {
      DieKeeps(s, k, cur.(status := Abandoned, ended := Some(now), pauseStarted := None), s.outcome, now, now);
    }
  }

  lemma ResumeFits(s: Session, k: nat, now: Instant)
    requires Inv(s, now) && k < |s.phases| && s.phases[k].status.Paused?
    requires !Due(s, k, now)
    ensures Fits(s, k, ResumedAt(s.phases[k], now), now)
    ensures !Due(With(s, k, ResumedAt(s.phases[k], now)), k, now)
  {
    AroundLive(s, k, now);
  }

  lemma ResumeKeeps(s: Session, now: Instant)
    requires Inv(s, now) && s.status.Running? && Quiet(s, now) && Resume(s, now).Some?
    ensures Settled(s, Resume(s, now).value.session, now)
  {
    var k := LiveIndex(s.phases);
    QuietIff(s, k, now);
    ResumeFits(s, k, now);
    GoesOn(s, k, ResumedAt(s.phases[k], now), now);
  }

  // --- advance ------------------------------------------------------------------------

  lemma SkipBreakKeeps(s: Session, k: nat, now: Instant)
    requires Inv(s, now) && k < |s.phases| && s.phases[k].status.Active? && s.phases[k].kind.Break?
    ensures
      var s1 := With(s, k, SkippedAt(s.phases[k], now));
      Inv(s1, now) && Closing(s1, now, now) && SamePlan(s, s1) && s1.status.Running?
  {
    SkipFits(s, k, now);
    OverCloses(s, k, SkippedAt(s.phases[k], now), now);
    hide RowsOk, StatusOk, SamePlan, EndedBy;
  }

  lemma SkipFits(s: Session, k: nat, now: Instant)
    requires Inv(s, now) && k < |s.phases| && s.phases[k].status.Active? && s.phases[k].kind.Break?
    ensures Fits(s, k, SkippedAt(s.phases[k], now), now)
    ensures StatusOk(With(s, k, SkippedAt(s.phases[k], now))) && s.status.Running?
  {
    AroundLive(s, k, now);
  }

  /** A phase started by tap is not due: every leg has a positive length. */
  lemma StartSettles(s: Session, n: nat, now: Instant)
    requires Inv(s, now) && s.status.Running? && Closing(s, now, now) && IsTimer(s)
    requires n == NextPending(s.phases) < |s.phases|
    ensures Settled(s, StartPhase(s, n, now).session, now)
  {
    StartKeeps(s, n, now, now);
    StartFits(s, n, now, now);
    var s1 := StartPhase(s, n, now).session;
    LiveIsFirst(s1.phases, n);
    assert PhaseOk(s, s.phases[n], now);
    QuietIff(s1, n, now);
  }

  /** Only a timer session has anything to advance. */
  lemma PendingMeansTimer(s: Session, now: Instant)
    requires Inv(s, now) && s.status.Running?
    requires LiveIndex(s.phases) == |s.phases| || s.phases[LiveIndex(s.phases)].kind.Break?
    ensures IsTimer(s)
  {}

  lemma AdvanceKeeps(s: Session, now: Instant)
    requires Inv(s, now) && s.status.Running? && Quiet(s, now) && Advance(s, now).Some?
    ensures Settled(s, Advance(s, now).value.session, now)
  {
    var k := LiveIndex(s.phases);
    PendingMeansTimer(s, now);
    if k == |s.phases| {
      NothingLiveCloses(s, now);
      StartSettles(s, NextPending(s.phases), now);
    } else {
      AdvanceBreakKeeps(s, k, now);
    }
  }

  lemma AdvanceForm(s: Session, k: nat, now: Instant)
    requires k == LiveIndex(s.phases) < |s.phases| && s.phases[k].status.Active? && s.phases[k].kind.Break?
    ensures Advance(s, now).Some?
    ensures
      var s1 := With(s, k, SkippedAt(s.phases[k], now));
      Advance(s, now).value.session ==
      if NextPending(s1.phases) < |s1.phases| then StartPhase(s1, NextPending(s1.phases), now).session
      else s1.(status := Ended, endedAt := Some(now))
  {}

  lemma AdvanceBreakKeeps(s: Session, k: nat, now: Instant)
    requires Inv(s, now) && s.status.Running? && IsTimer(s)
    requires k == LiveIndex(s.phases) < |s.phases| && s.phases[k].status.Active? && s.phases[k].kind.Break?
    ensures Settled(s, Advance(s, now).value.session, now)
  {
    hide Advance, StartPhase, PlanOk, PhaseOk, Ordered, Chronological, StatusOk;
    SkipBreakKeeps(s, k, now);
    var s1 := With(s, k, SkippedAt(s.phases[k], now));
    PlanKept(s, s1);
    AdvanceForm(s, k, now);
    if NextPending(s1.phases) < |s1.phases| {
      StartSettles(s1, NextPending(s1.phases), now);
    } else {
      EndKeeps(s1, now);
    }
  }

  lemma NothingLiveCloses(s: Session, now: Instant)
    requires Inv(s, now) && LiveIndex(s.phases) == |s.phases|
    ensures Closing(s, now, now)
  {
    forall i | 0 <= i < |s.phases| && s.phases[i].ended.Some? ensures s.phases[i].ended.value <= now {
      assert PhaseOk(s, s.phases[i], now);
    }
  }

  /** A session ends with nothing left to start. */
  lemma EndKeeps(s: Session, now: Instant)
    requires Inv(s, now) && s.status.Running? && Closing(s, now, now) && NextPending(s.phases) == |s.phases|
    ensures Settled(s, s.(status := Ended, endedAt := Some(now)), now)
  {
    AllOverMeansFocusDone(s, now);
    CloseKeeps(s, Ended, now, now);
    NothingToSkip(s.phases, now);
    assert s.(status := Ended, endedAt := Some(now)) == Close(s, Ended, now);
  }

  // --- stop and done ----------------------------------------------------------------------

  lemma BankFits(s: Session, k: nat, now: Instant)
    requires Inv(s, now) && k < |s.phases| && s.phases[k].IsLive()
    ensures Fits(s, k, BankOpenPause(s.phases[k], now).(status := Abandoned, ended := Some(now)), now)
    ensures s.phases[k].kind.Break? ==> Fits(s, k, EndedByStop(s.phases[k], now), now)
    ensures s.phases[k].kind.Stopwatch? ==> Fits(s, k, StoppedStopwatch(s.phases[k], now), now)
    ensures s.phases[k].started.Some? && s.phases[k].started.value <= now
  {
    AroundLive(s, k, now);
  }

  /** Live phase k is over at `now` and nothing else is running. */
  lemma OverCloses(s: Session, k: nat, p: Phase, now: Instant)
    requires Inv(s, now) && k < |s.phases| && s.phases[k].IsLive()
    requires Fits(s, k, p, now) && p.Terminal() && p.ended == Some(now)
    ensures Closing(With(s, k, p), now, now) && SamePlan(s, With(s, k, p))
  {
    ReplaceKeeps(s, k, p, now);
    AroundLive(s, k, now);
  }

  lemma StopForm(s: Session, k: nat, now: Instant)
    requires k == LiveIndex(s.phases)
    ensures k < |s.phases| && s.phases[k].kind.Speedrun? ==>
      Stop(s, now).session == Die(s, k, BankOpenPause(s.phases[k], now).(status := Abandoned, ended := Some(now)),
                                  Stop(s, now).session.outcome, now)
    ensures k < |s.phases| && s.phases[k].kind.Stopwatch? ==>
      Stop(s, now).session == Close(With(s, k, StoppedStopwatch(s.phases[k], now)), Ended, now)
    ensures k < |s.phases| && !s.phases[k].kind.Speedrun? && !s.phases[k].kind.Stopwatch? ==>
      var s1 := With(s, k, EndedByStop(s.phases[k], now));
      Stop(s, now).session == Close(s1, if CompletedFocusCount(s1.phases) == 0 then Dead else Ended, now)
    ensures k == |s.phases| ==>
      Stop(s, now).session == Close(s, if CompletedFocusCount(s.phases) == 0 then Dead else Ended, now)
  {}

  lemma StopTimerKeeps(s: Session, k: nat, now: Instant)
    requires Inv(s, now) && k < |s.phases| && s.phases[k].IsLive()
    requires s.phases[k].kind.Focus? || s.phases[k].kind.Break?
    ensures
      var s1 := With(s, k, EndedByStop(s.phases[k], now));
      var s2 := Close(s1, if CompletedFocusCount(s1.phases) == 0 then Dead else Ended, now);
      Inv(s2, now) && SamePlan(s, s2)
  {
    BankFits(s, k, now);
    var s1 := With(s, k, EndedByStop(s.phases[k], now));
    OverCloses(s, k, EndedByStop(s.phases[k], now), now);
    CloseKeeps(s1, if CompletedFocusCount(s1.phases) == 0 then Dead else Ended, now, now);
  }

  lemma StopSpeedrunKeeps(s: Session, k: nat, outcome: Option<RunOutcome>, now: Instant)
    requires Inv(s, now) && k < |s.phases| && s.phases[k].IsLive()
    ensures
      var dead := BankOpenPause(s.phases[k], now).(status := Abandoned, ended := Some(now));
      Inv(Die(s, k, dead, outcome, now), now) && SamePlan(s, Die(s, k, dead, outcome, now))
  {
    BankFits(s, k, now);
    DieKeeps(s, k, BankOpenPause(s.phases[k], now).(status := Abandoned, ended := Some(now)), outcome, now, now);
  }

  lemma StopKeeps(s: Session, now: Instant)
    requires Inv(s, now) && s.status.Running?
    ensures Settled(s, Stop(s, now).session, now)
  {
    var k := LiveIndex(s.phases);
    StopForm(s, k, now);
    if k == |s.phases| {
      NothingLiveCloses(s, now);
      CloseKeeps(s, if CompletedFocusCount(s.phases) == 0 then Dead else Ended, now, now);
    } else if s.phases[k].kind.Speedrun? {
      StopSpeedrunKeeps(s, k, Stop(s, now).session.outcome, now);
    } else if s.phases[k].kind.Stopwatch? {
      StopwatchKeeps(s, k, now);
    } else {
      StopTimerKeeps(s, k, now);
    }
  }

  lemma StopwatchKeeps(s: Session, k: nat, now: Instant)
    requires Inv(s, now) && k < |s.phases| && s.phases[k].IsLive() && s.phases[k].kind.Stopwatch?
    ensures Inv(Close(With(s, k, StoppedStopwatch(s.phases[k], now)), Ended, now), now)
    ensures SamePlan(s, Close(With(s, k, StoppedStopwatch(s.phases[k], now)), Ended, now))
  {
    BankFits(s, k, now);
    var p := StoppedStopwatch(s.phases[k], now);
    OverCloses(s, k, p, now);
    assert !IsTimer(With(s, k, p)) by { assert With(s, k, p).phases[k].kind.Stopwatch?; }
    CloseKeeps(With(s, k, p), Ended, now, now);
  }

  lemma FinishFits(s: Session, k: nat, now: Instant)
    requires Inv(s, now) && k < |s.phases| && s.phases[k].IsLive() && s.phases[k].kind.Speedrun?
    requires s.phases[k].started.Some? && now - s.phases[k].started.value >= 1
    ensures
      var p := FinishedAt(BankOpenPause(s.phases[k], now), now - s.phases[k].started.value, now);
      Fits(s, k, p, now) && p.Terminal() && p.ended == Some(now)
  {
    AroundLive(s, k, now);
  }

  lemma DoneForm(s: Session, k: nat, now: Instant, prior: Option<int>)
    requires k == LiveIndex(s.phases) < |s.phases| == 1 && s.phases[k].kind.Speedrun? && s.phases[k].started.Some?
    requires !Due(s, k, now) && Done(s, now, prior).Some?
    ensures now - s.phases[k].started.value >= 1
    ensures
      var p := FinishedAt(BankOpenPause(s.phases[k], now), now - s.phases[k].started.value, now);
      Done(s, now, prior).value.session
      == Close(With(s, k, p).(outcome := Done(s, now, prior).value.session.outcome), Ended, now)
  {
    var p := FinishedAt(BankOpenPause(s.phases[k], now), now - s.phases[k].started.value, now);
    assert SkipPending(With(s, k, p).phases, now) == With(s, k, p).phases;
  }

  lemma FinishKeeps(s: Session, k: nat, p: Phase, outcome: Option<RunOutcome>, now: Instant)
    requires Inv(s, now) && k < |s.phases| && s.phases[k].IsLive() && s.phases[k].kind.Speedrun?
    requires Fits(s, k, p, now) && p.Terminal() && p.ended == Some(now)
    ensures
      var s2 := Close(With(s, k, p).(outcome := outcome), Ended, now);
      Inv(s2, now) && SamePlan(s, s2)
  {
    OverCloses(s, k, p, now);
    var s1 := With(s, k, p);
    var s2 := s1.(outcome := outcome);
    RowsIgnoreOutcome(s1, s2, now);
    assert !IsTimer(s2) by { assert s2.phases[k].kind.Speedrun?; }
    CloseKeeps(s2, Ended, now, now);
  }

  lemma DoneKeeps(s: Session, now: Instant, prior: Option<int>)
    requires Inv(s, now) && s.status.Running? && Quiet(s, now) && Done(s, now, prior).Some?
    ensures Settled(s, Done(s, now, prior).value.session, now)
  {
    var k := LiveIndex(s.phases);
    QuietIff(s, k, now);
    assert PhaseOk(s, s.phases[k], now);
    DoneForm(s, k, now, prior);
    FinishFits(s, k, now);
    FinishKeeps(s, k, FinishedAt(BankOpenPause(s.phases[k], now), now - s.phases[k].started.value, now),
                Done(s, now, prior).value.session.outcome, now);
  }

  /** Every verb keeps the invariant, and a second evaluation at the same instant finds
      nothing to do: the verb's steps are the last ones of their transaction. */
  lemma VerbKeeps(s: Session, v: Verb, now: Instant)
    requires Inv(s, now) && s.status.Running? && Quiet(s, now) && Apply(s, v, now).Some?
    ensures Settled(s, Apply(s, v, now).value.session, now)
  {
    match v
    case DoPause => PauseKeeps(s, now);
    case DoResume => ResumeKeeps(s, now);
    case DoAdvance => AdvanceKeeps(s, now);
    case DoStop => StopKeeps(s, now);
    case DoFinish(prior) => DoneKeeps(s, now, prior);
  }
}
