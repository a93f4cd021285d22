/** What each verb does, row by row and step by step: said outright, by no function of the
    engine. */
module SessionVerbLaws {
  import opened Basics
  import opened SessionTypes
  import opened SessionEngine
  import opened SessionInvariant
  import opened SessionShape
  import opened SessionLedger
  import opened SessionLaws

  /** Row k becomes p and nothing else of the session changes. */
  predicate OnlyRow(s: Session, k: nat, s': Session, p: Phase) {
    k < |s.phases| && s' == s.(phases := s.phases[k := p])
  }

  lemma LiveIs(s: Session, k: nat)
    requires Shape(s) && k < |s.phases| && s.phases[k].IsLive()
    ensures LiveIndex(s.phases) == k && s.status.Running? && s.phases[k].seqNo == k && Numbered(s.phases)
    ensures s.phases[k].started.Some? && RowShape(s.phases[k])
    ensures forall i :: 0 <= i < k ==> s.phases[i].Terminal()
    ensures forall j :: k < j < |s.phases| ==> s.phases[j].status.Pending?
  {
    LiveSplits(s, k);
  }

  // --- pause and resume ---------------------------------------------------------------------------

  /** A pause of a running focus phase keeps the session running exactly when the budget has one
      left, and otherwise kills it; stopwatch and speedrun have no budget. */
  lemma PauseLaw(s: Session, k: nat, now: Instant)
    requires Shape(s) && k < |s.phases| && s.phases[k].IsLive()
    ensures
      var p := s.phases[k];
      match Pause(s, now)
      case None => p.status.Paused? || p.kind.Break?
      case Some(m) =>
        && p.status.Active? && !p.kind.Break?
        && (m.session.status.Running? <==> (p.kind.Focus? ==> p.pauseCount + 1 <= s.budgetCount))
        && if m.session.status.Running? then
             && OnlyRow(s, k, m.session, p.(status := Paused, pauseStarted := Some(now), pauseCount := p.pauseCount + 1))
             && m.steps == [Step(PhasePaused, Some(k), now, extra := PauseNumber(p.pauseCount + 1))]
           else
             && |m.session.phases| == |s.phases|
             && m.session.phases[k] == p.(status := Abandoned, ended := Some(now), pauseStarted := None)
             && m.session.outcome == s.outcome
             && Closed(s, k, m, Dead, now, Step(SessionAbandoned, Some(k), now, reason := Some(PauseOverflow)))
  {
    hide Shape, Closed, SkipSteps, LiveIndex;
    LiveIs(s, k);
    var p := s.phases[k];
    var dead := p.(status := Abandoned, ended := Some(now), pauseStarted := None);
    DeathIsClosed(s, k, dead, now);
  }

  lemma DeathIsClosed(s: Session, k: nat, dead: Phase, now: Instant)
    requires Numbered(s.phases) && k < |s.phases| && dead.seqNo == k && dead.Terminal()
    ensures
      var m := Overflow(s, k, dead, now);
      && Closed(s, k, m, Dead, now, Step(SessionAbandoned, Some(k), now, reason := Some(PauseOverflow)))
      && |m.session.phases| == |s.phases| && m.session.phases[k] == dead && m.session.outcome == s.outcome
  {
    hide SkipSteps;
    var final := Step(SessionAbandoned, Some(k), now, reason := Some(PauseOverflow));
    CloseIsClosed(s, k, dead, s.outcome, Dead, now, [], final);
    assert [] + SkipSteps(s.phases[k := dead], now) == SkipSteps(s.phases[k := dead], now);
    assert Overflow(s, k, dead, now).session == Close(s.(phases := s.phases[k := dead], outcome := s.outcome), Dead, now);
  }

  /** A resume banks the pause, and kills the session exactly when a focus phase's budget of
      seconds is gone. */
  lemma ResumeLaw(s: Session, k: nat, now: Instant)
    requires Shape(s) && k < |s.phases| && s.phases[k].IsLive()
    ensures
      var p := s.phases[k];
      match Resume(s, now)
      case None => p.status.Active?
      case Some(m) =>
        && p.status.Paused?
        && (m.session.status.Running? <==> (p.kind.Focus? ==> p.paused + Open(p, now) <= s.budgetSeconds))
        && if m.session.status.Running? then
             && OnlyRow(s, k, m.session, Banked(p, now).(status := Active))
             && m.steps == [Step(PhaseResumed, Some(k), now, extra := PauseNumber(p.pauseCount))]
           else
             && |m.session.phases| == |s.phases|
             && m.session.phases[k] == Banked(p, now).(status := Abandoned, ended := Some(now))
             && m.session.outcome == s.outcome
             && Closed(s, k, m, Dead, now, Step(SessionAbandoned, Some(k), now, reason := Some(PauseOverflow)))
  {
    hide Shape, Closed, SkipSteps, LiveIndex;
    LiveIs(s, k);
    DeathIsClosed(s, k, Banked(s.phases[k], now).(status := Abandoned, ended := Some(now)), now);
  }

  /** With nothing live there is nothing to pause or resume. */
  lemma NothingToPause(s: Session, now: Instant)
    requires forall i :: 0 <= i < |s.phases| ==> !s.phases[i].IsLive()
    ensures Pause(s, now).None? && Resume(s, now).None?
  {}

  // --- advance --------------------------------------------------------------------------------------

  /** A tap on a running break skips it and starts the next phase, or ends the session. */
  lemma AdvanceBreakLaw(s: Session, k: nat, now: Instant)
    requires Shape(s) && k < |s.phases| && s.phases[k].IsLive()
    ensures
      match Advance(s, now)
      case None => !s.phases[k].kind.Break?
      case Some(m) =>
        var skipped := s.phases[k := Passed(s.phases[k], now)];
        && s.phases[k].kind.Break?
        && if k + 1 < |s.phases| then
             && m.session == s.(phases := skipped[k + 1 := s.phases[k + 1].(status := Active, started := Some(now))])
             && m.steps == [Step(PhaseSkipped, Some(k), now), Step(PhaseStarted, Some(k + 1), now)]
           else
             && m.session == s.(phases := skipped, status := Ended, endedAt := Some(now))
             && m.steps == [Step(PhaseSkipped, Some(k), now), Step(SessionEnded, None, now)]
  {
    hide Shape, NextPending, LiveIndex;
    LiveIs(s, k);
    FirstPending(With(s, k, SkippedAt(s.phases[k], now)).phases, k + 1);
    NextIsNumbered(s, k);
  }

  lemma NextIsNumbered(s: Session, k: nat)
    requires Numbered(s.phases)
    ensures k + 1 < |s.phases| ==> s.phases[k + 1].seqNo == k + 1
  {}

  /** A tap with nothing live starts the first pending phase. */
  lemma AdvanceIdleLaw(s: Session, j: nat, now: Instant)
    requires Shape(s) && j <= |s.phases|
    requires forall i :: 0 <= i < j ==> s.phases[i].Terminal()
    requires forall i :: j <= i < |s.phases| ==> s.phases[i].status.Pending?
    ensures
      match Advance(s, now)
      case None => j == |s.phases|
      case Some(m) =>
        && j < |s.phases|
        && OnlyRow(s, j, m.session, s.phases[j].(status := Active, started := Some(now)))
        && m.steps == [Step(PhaseStarted, Some(j), now)]
  {
    ShapedRows(s);
    hide Shape, NextPending;
    assert LiveIndex(s.phases) == |s.phases|;
    FirstPending(s.phases, j);
    if j < |s.phases| { assert s.phases[j].seqNo == j; }
  }

  // --- stop --------------------------------------------------------------------------------------------

  /** Stopping a timer: a live focus phase is abandoned and a live break skipped, first of all and
      with its open pause banked; the session ends cleanly exactly when a focus phase was
      completed. */
  lemma StopLiveLaw(s: Session, k: nat, now: Instant)
    requires Shape(s) && k < |s.phases| && s.phases[k].IsLive()
    requires s.phases[k].kind.Focus? || s.phases[k].kind.Break?
    ensures
      var p, m := s.phases[k], Stop(s, now);
      && |m.session.phases| == |s.phases| && m.session.outcome == s.outcome
      && m.session.phases[k]
           == Banked(p, now).(status := if p.kind.Focus? then Abandoned else Skipped, ended := Some(now))
      && |m.steps| > 1
      && m.steps[0] == Step(if p.kind.Focus? then PhaseAbandoned else PhaseSkipped, Some(k), now)
      && if HasFocus(s) then Closed(s, k, m, Ended, now, Step(SessionEnded, None, now))
         else Closed(s, k, m, Dead, now, Step(SessionAbandoned, Some(k), now, reason := Some(ManualStop)))
  {
    hide Shape, Closed, SkipSteps, LiveIndex, HasFocus, CompletedFocusCount;
    LiveIs(s, k);
    var p := EndedByStop(s.phases[k], now);
    var s1 := With(s, k, p);
    SameFocus(s1, s);
    var dead := CompletedFocusCount(s1.phases) == 0;
    CloseIsClosed(s, k, p, s.outcome, if dead then Dead else Ended, now, [StopStep(p, now)],
                  if dead then Step(SessionAbandoned, Some(k), now, reason := Some(ManualStop))
                  else Step(SessionEnded, None, now));
  }

  /** Stopping between two phases. */
  lemma StopIdleLaw(s: Session, now: Instant)
    requires Shape(s) && s.status.Running? && forall i :: 0 <= i < |s.phases| ==> !s.phases[i].IsLive()
    ensures
      var m := Stop(s, now);
      && m.session.outcome == s.outcome
      && if HasFocus(s) then Closed(s, |s.phases|, m, Ended, now, Step(SessionEnded, None, now))
         else Closed(s, |s.phases|, m, Dead, now, Step(SessionAbandoned, None, now, reason := Some(ManualStop)))
  {
    ShapedRows(s);
    hide Shape, Closed, SkipSteps, HasFocus, CompletedFocusCount;
    assert LiveIndex(s.phases) == |s.phases|;
    SameFocus(s, s);
    var dead := CompletedFocusCount(s.phases) == 0;
    if |s.phases| > 0 {
      CloseIsClosed(s, |s.phases|, s.phases[0], s.outcome, if dead then Dead else Ended, now, [],
                    if dead then Step(SessionAbandoned, None, now, reason := Some(ManualStop))
                    else Step(SessionEnded, None, now));
    }
  }

  /** How a speedrun dies: its row, its blob and its two steps. */
  ghost predicate RunLost(s: Session, m: Move, result: RunResult, reason: Reason, elapsed: int, at: Instant)
    requires |s.phases| == 1
  {
    var boxed := if s.runType.Some? then s.runType.value.TimeBoxed? else s.phases[0].planned > 0;
    && m.session == s.(status := Dead, endedAt := Some(at), phases := m.session.phases,
                       outcome := Some(RunOutcome(result, elapsed, Some(reason), None, None)))
    && m.session.phases == [Banked(s.phases[0], at).(status := Abandoned, ended := Some(at))]
    && m.steps == [Step(PhaseAbandoned, Some(0), at),
                   Step(SpeedrunFailed, Some(0), at, None, true, Some(reason),
                        FailedRun(if boxed then TimeBoxed else BeatBest, elapsed))]
  }

  /** Stopping a speedrun loses it; a box missed and an open run given up are told apart. */
  lemma StopSpeedrunLaw(s: Session, now: Instant)
    requires Shape(s) && IsSpeedrun(s) && s.status.Running?
    ensures s.phases[0].started.Some?
    ensures
      var boxed := if s.runType.Some? then s.runType.value.TimeBoxed? else s.phases[0].planned > 0;
      RunLost(s, Stop(s, now), if boxed then Miss else GivenUp, RunAbandon,
              Max(0, now - s.phases[0].started.value), now)
  {
    ShapedRows(s);
    LiveIs(s, 0);
    hide Shape, AbandonSpeedrun, RunLost;
    AbandonIsLost(s, now, Max(0, now - s.phases[0].started.value), RunAbandon);
  }

  /** Stopping a stopwatch: the time on it less the pauses, the milestones, and a clean end. */
  lemma StopStopwatchLaw(s: Session, now: Instant)
    requires Shape(s) && IsStopwatch(s) && s.status.Running?
    ensures s.phases[0].IsLive() && s.phases[0].started.Some?
    ensures
      var p, m := s.phases[0], Stop(s, now);
      var actual := Max(0, now - p.started.value - (p.paused + Open(p, now)));
      && m.session == s.(status := Ended, endedAt := Some(now), phases := m.session.phases)
      && m.session.phases
           == [p.(status := Completed, actual := Some(actual), ended := Some(now), paused := p.paused + Open(p, now),
                  pauseStarted := None)]
      && |m.steps| == Min(100, actual / 1500) + 1
      && m.steps[|m.steps| - 1] == Step(SessionEnded, None, now)
      && (forall i :: 0 <= i < |m.steps| - 1 ==>
            m.steps[i] == Step(PhaseCompleted, Some(0), p.started.value + (i + 1) * 1500 + p.paused + Open(p, now),
                               Some((i + 1) * 1500), true, None, Milestone(i + 1)))
  {
    StopwatchIsLive(s);
    LiveIs(s, 0);
    hide Shape;
    var p := StoppedStopwatch(s.phases[0], now);
    OnePhaseSkipsNothing(With(s, 0, p).phases, now);
    FullChunks(p.actual.value);
  }

  lemma StopwatchIsLive(s: Session)
    requires Shape(s) && IsStopwatch(s) && s.status.Running?
    ensures s.phases[0].IsLive()
  {}

  lemma FullChunks(actual: nat)
    ensures MilestoneCount(actual) == Min(100, actual / 1500)
  {
    if actual / 60 <= 2500 { assert actual / 60 / 25 == actual / 1500; }
  }

  // --- done --------------------------------------------------------------------------------------------

  /** How a speedrun is finished: its row, its blob and its steps. */
  ghost predicate RunFinished(s: Session, m: Move, elapsed: int, prior: Option<int>, at: Instant)
    requires |s.phases| == 1
  {
    var p := s.phases[0];
    var boxed := if s.runType.Some? then s.runType.value.TimeBoxed? else p.planned > 0;
    var record := elapsed >= 60 && (prior.Some? ==> elapsed < prior.value);
    && m.session == s.(status := Ended, endedAt := Some(at), phases := m.session.phases, outcome := m.session.outcome)
    && m.session.phases == [Banked(p, at).(status := Completed, actual := Some(elapsed), ended := Some(at))]
    && m.session.outcome == Some(
         if boxed then RunOutcome(Win, elapsed, None, Some(p.planned - elapsed), None)
         else RunOutcome(if record then Record else Finished, elapsed, None, None, prior))
    && |m.steps| == (if !boxed && record then 4 else 3)
    && m.steps[0] == Step(PhaseCompleted, Some(0), at, Some(elapsed))
    && m.steps[1] == Step(SpeedrunCompleted, Some(0), at, None, true, None,
                          if boxed then BoxedWin(elapsed, elapsed >= 60, p.planned - elapsed)
                          else BestRun(elapsed, record, prior))
    && (!boxed && record ==>
          m.steps[2] == Step(RecordSet, Some(0), at, None, true, None, NewRecord(prior, elapsed)))
    && m.steps[|m.steps| - 1] == Step(SessionEnded, None, at)
  }

  lemma AbandonIsLost(s: Session, now: Instant, elapsed: int, reason: Reason)
    requires |s.phases| == 1 && s.phases[0].seqNo == 0
    ensures
      var boxed := if s.runType.Some? then s.runType.value.TimeBoxed? else s.phases[0].planned > 0;
      RunLost(s, AbandonSpeedrun(s, 0, BankOpenPause(s.phases[0], now), now, elapsed, reason),
              if boxed then Miss else GivenUp, reason, elapsed, now)
  {
    OnePhaseSkipsNothing(s.phases[0 := BankOpenPause(s.phases[0], now).(status := Abandoned, ended := Some(now))], now);
  }

  lemma FinishIsFinished(s: Session, now: Instant, elapsed: int, prior: Option<int>)
    requires |s.phases| == 1 && s.phases[0].seqNo == 0
    ensures RunFinished(s, FinishRun(s, 0, BankOpenPause(s.phases[0], now), now, elapsed, prior), elapsed, prior, now)
  {}

  /** Declaring a speedrun done: too short is refused, a full box is a miss, and otherwise the run
      counts, with a record, a bonus and a margin exactly when it earned them. */
  lemma DoneLaw(s: Session, now: Instant, prior: Option<int>)
    requires Shape(s) && IsSpeedrun(s) && s.status.Running?
    ensures s.phases[0].started.Some?
    ensures
      var p := s.phases[0];
      var elapsed := now - p.started.value;
      var boxed := if s.runType.Some? then s.runType.value.TimeBoxed? else p.planned > 0;
      match Done(s, now, prior)
      case None => elapsed < 1
      case Some(m) =>
        && elapsed >= 1
        && if boxed && elapsed >= p.planned then RunLost(s, m, Miss, Timeout, elapsed, now)
           else RunFinished(s, m, elapsed, prior, now)
  {
    ShapedRows(s);
    LiveIs(s, 0);
    hide Shape, AbandonSpeedrun, FinishRun, RunLost, RunFinished;
    var elapsed := Max(0, now - s.phases[0].started.value);
    AbandonIsLost(s, now, elapsed, Timeout);
    FinishIsFinished(s, now, elapsed, prior);
  }

  /** Nothing but a live speedrun can be declared done. */
  lemma OnlyRunsAreDone(s: Session, now: Instant, prior: Option<int>)
    requires Shape(s) && Done(s, now, prior).Some?
    ensures IsSpeedrun(s) && s.status.Running?
  {
    LiveSplits(s, LiveIndex(s.phases));
  }
}
