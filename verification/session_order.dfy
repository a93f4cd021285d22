/** When steps happen: in order, never before what is already on record, never after the poll. */
module SessionOrder {
  import opened Basics
  import opened SessionTypes
  import opened SessionEngine
  import opened SessionInvariant
  import opened SessionPolling
  import opened SessionVerbs

  /** Instants never decrease and stay between lo and hi. */
  ghost predicate InOrder(steps: seq<Step>, lo: Instant, hi: Instant) {
    && (forall i :: 0 <= i < |steps| ==> lo <= steps[i].at <= hi)
    && (forall i, j :: 0 <= i < j < |steps| ==> steps[i].at <= steps[j].at)
  }

  lemma InOrderThen(a: seq<Step>, b: seq<Step>, lo: Instant, mid: Instant, hi: Instant)
    requires InOrder(a, lo, mid) && InOrder(b, mid, hi) && lo <= mid <= hi
    ensures InOrder(a + b, lo, hi)
  {}

  ghost predicate AllAt(steps: seq<Step>, at: Instant) { forall i :: 0 <= i < |steps| ==> steps[i].at == at }

  lemma SkipsAt(ps: seq<Phase>, at: Instant)
    ensures AllAt(SkipSteps(ps, at), at)
  {
    assert forall i :: 0 <= i < |SkipSteps(ps, at)| ==> SkipSteps(ps, at)[i] in SkipSteps(ps, at);
  }

  /** The step instants of one loop turn. */
  lemma TurnAt(s: Session, k: nat, lastEnd: Instant, now: Instant)
    requires Inv(s, now) && s.status.Running? && Anchor(s, lastEnd)
    requires k == LiveIndex(s.phases) < |s.phases| && !Elapsed(s, k, now)
    ensures LiveTurn(s, k, now).steps == []
      || exists at :: lastEnd <= at <= now && AllAt(LiveTurn(s, k, now).steps, at)
  {
    hide RowsOk, StatusOk, Anchor, AllAt, CheckSpeedrunDeadline, CheckPauseOverflow;
    LiveAfterAnchor(s, k, lastEnd, now);
    var cur := s.phases[k];
    if cur.kind.Speedrun? {
      if CheckSpeedrunDeadline(s, k, now).Some? { DeadlineAt(s, k, now); }
    } else if !cur.kind.Stopwatch? && cur.status.Paused? {
      PauseOverflowAt(s, k, now);
    }
  }

  lemma DeadlineAt(s: Session, k: nat, now: Instant)
    requires k < |s.phases| && s.phases[k].started.Some? && CheckSpeedrunDeadline(s, k, now).Some?
    ensures
      var at := s.phases[k].started.value + s.phases[k].planned;
      at <= now && AllAt(CheckSpeedrunDeadline(s, k, now).value.steps, at)
  {
    var cur := s.phases[k];
    var at := cur.started.value + cur.planned;
    SkipsAt(s.phases[k := BankOpenPause(cur, at).(status := Abandoned, ended := Some(at))], at);
  }

  /** An overflow happens when the budget is used up: after the pause began, before now. */
  lemma PauseOverflowAt(s: Session, k: nat, now: Instant)
    requires k < |s.phases| && s.phases[k].pauseStarted.Some?
    ensures
      var m := CheckPauseOverflow(s, k, now);
      m.steps == [] || (CrossedAt(s, k) < now && AllAt(m.steps, CrossedAt(s, k)))
  {
    SkipsAt(s.phases[k := Overflown(s.phases[k], CrossedAt(s, k), now)], CrossedAt(s, k));
  }

  lemma LiveAfterAnchor(s: Session, k: nat, lastEnd: Instant, now: Instant)
    requires Inv(s, now) && Anchor(s, lastEnd) && k < |s.phases| && s.phases[k].IsLive()
    ensures s.phases[k].started.Some? && lastEnd <= s.phases[k].started.value
    ensures s.phases[k].planned >= 0 && s.phases[k].paused >= 0
    ensures s.phases[k].status.Paused? ==>
      s.phases[k].pauseStarted.Some? && s.phases[k].started.value <= s.phases[k].pauseStarted.value
    ensures s.phases[k].kind.Focus? ==> s.phases[k].paused <= s.budgetSeconds
    ensures s.phases[k].kind.Break? ==> s.phases[k].status.Active?
  {
    AroundLive(s, k, now);
  }

  lemma ResolveAt(s: Session, lastEnd: Instant, now: Instant)
    requires Inv(s, now) && Anchor(s, lastEnd)
    ensures ResolveNoLive(s, lastEnd, now).steps == []
      || exists at :: lastEnd <= at <= now && AllAt(ResolveNoLive(s, lastEnd, now).steps, at)
  {
    hide RowsOk, StatusOk, Anchor, AllAt;
    AnchorInPast(s, lastEnd, now);
    ResolveSteps(s, lastEnd, now);
  }

  lemma AnchorInPast(s: Session, lastEnd: Instant, now: Instant)
    requires Inv(s, now) && Anchor(s, lastEnd)
    ensures lastEnd <= now
  {
    AnchorBounds(s, lastEnd, now);
  }

  lemma ResolveSteps(s: Session, lastEnd: Instant, now: Instant)
    ensures
      var m := ResolveNoLive(s, lastEnd, now);
      || m.steps == []
      || AllAt(m.steps, lastEnd)
      || (lastEnd + GRACE_SECONDS <= now && AllAt(m.steps, lastEnd + GRACE_SECONDS))
  {
    SkipsAt(s.phases, lastEnd + GRACE_SECONDS);
  }

  lemma AtIsInOrder(steps: seq<Step>, at: Instant, lo: Instant, hi: Instant)
    requires AllAt(steps, at) && lo <= at <= hi
    ensures InOrder(steps, lo, hi)
  {}

  lemma {:induction false} EvaluateFromInOrder(s: Session, lastEnd: Instant, now: Instant)
    requires Inv(s, now) && s.status.Running? && Anchor(s, lastEnd)
    ensures InOrder(EvaluateFrom(s, lastEnd, now).steps, lastEnd, now)
    decreases OpenSet(s.phases)
  {
    hide InOrder, AllAt, RowsOk, StatusOk, Anchor;
    var k := LiveIndex(s.phases);
    if k == |s.phases| {
      ResolveAt(s, lastEnd, now);
      ReadOrder(ResolveNoLive(s, lastEnd, now).steps, lastEnd, now);
    } else if Elapsed(s, k, now) {
      LiveAfterAnchor(s, k, lastEnd, now);
      var end := PhaseEnd(s.phases[k], now);
      var m := CompletePhase(s, k, end);
      CompletePhaseKeeps(s, k, end, now);
      CompletionCloses(s, k, end);
      LoopTurn(s, k, lastEnd, now);
      EvaluateFromInOrder(m.session, end, now);
      CompletionInOrder(s, k, end, lastEnd);
      InOrderThen(m.steps, EvaluateFrom(m.session, end, now).steps, lastEnd, end, now);
    } else {
      LoopStops(s, k, lastEnd, now);
      TurnAt(s, k, lastEnd, now);
      ReadOrder(LiveTurn(s, k, now).steps, lastEnd, now);
    }
  }

  lemma ReadOrder(steps: seq<Step>, lo: Instant, hi: Instant)
    requires steps == [] || exists at :: lo <= at <= hi && AllAt(steps, at)
    ensures InOrder(steps, lo, hi)
  {}

  lemma CompletionInOrder(s: Session, k: nat, end: Instant, lo: Instant)
    requires k < |s.phases| && lo <= end
    ensures InOrder(CompletePhase(s, k, end).steps, lo, end)
  {}

  /** If nothing was due at c, whatever is due later happens at c or after. */
  lemma QuietThenLater(s: Session, c: Instant, now: Instant)
    requires Inv(s, c) && Quiet(s, c) && c <= now
    ensures InOrder(Evaluate(s, now).steps, c, now)
  {
    if s.status.Running? {
      InvLater(s, c, now);
      var lastEnd := LastEnd(s.phases, s.startedAt);
      var k := LiveIndex(s.phases);
      if k == |s.phases| {
        ResolveAt(s, lastEnd, now);
        QuietResolve(s, lastEnd, c, now);
      } else {
        QuietIff(s, k, c);
        if Elapsed(s, k, now) {
          QuietTurn(s, k, lastEnd, c, now);
        } else {
          QuietLive(s, k, lastEnd, c, now);
        }
      }
    }
  }

  lemma QuietResolve(s: Session, lastEnd: Instant, c: Instant, now: Instant)
    requires c <= now && ResolveNoLive(s, lastEnd, c).steps == []
    ensures InOrder(ResolveNoLive(s, lastEnd, now).steps, c, now)
  {
    SkipsAt(s.phases, lastEnd + GRACE_SECONDS);
  }

  lemma QuietTurn(s: Session, k: nat, lastEnd: Instant, c: Instant, now: Instant)
    requires Inv(s, now) && s.status.Running? && Anchor(s, lastEnd) && c <= now
    requires Elapsed(s, k, now) && !Due(s, k, c)
    ensures InOrder(EvaluateFrom(s, lastEnd, now).steps, c, now)
  {
    hide InOrder, RowsOk, StatusOk, Anchor, EvaluateFrom, CompletePhase;
    LiveAfterAnchor(s, k, lastEnd, now);
    var end := PhaseEnd(s.phases[k], now);
    var m := CompletePhase(s, k, end);
    CompletePhaseKeeps(s, k, end, now);
    LoopTurn(s, k, lastEnd, now);
    EvaluateFromInOrder(m.session, end, now);
    CompletionInOrder(s, k, end, c);
    InOrderThen(m.steps, EvaluateFrom(m.session, end, now).steps, c, end, now);
  }

  lemma QuietLive(s: Session, k: nat, lastEnd: Instant, c: Instant, now: Instant)
    requires Inv(s, now) && s.status.Running? && Anchor(s, lastEnd) && c <= now
    requires k == LiveIndex(s.phases) < |s.phases| && !Elapsed(s, k, now) && !Due(s, k, c)
    ensures InOrder(EvaluateFrom(s, lastEnd, now).steps, c, now)
  {
    hide RowsOk, StatusOk, Anchor;
    LoopStops(s, k, lastEnd, now);
    LiveAfterAnchor(s, k, lastEnd, now);
    var cur := s.phases[k];
    if LiveTurn(s, k, now).steps != [] {
      var at := LiveTurn(s, k, now).steps[|LiveTurn(s, k, now).steps| - 1].at;
      if cur.kind.Speedrun? {
        SkipsAt(s.phases[k := BankOpenPause(cur, at).(status := Abandoned, ended := Some(at))], at);
      } else {
        SkipsAt(s.phases[k := Overflown(cur, at, now)], at);
      }
    }
  }

  /** Every step of a verb carries the verb's instant, milestones of a stopwatch aside. */
  lemma VerbAt(s: Session, v: Verb, now: Instant)
    requires Inv(s, now) && s.status.Running? && Apply(s, v, now).Some? && !IsStopwatch(s)
    ensures AllAt(Apply(s, v, now).value.steps, now)
  {
    hide RowsOk, StatusOk, Pause, Resume, Advance, Stop, Done;
    NoStopwatchPhase(s, LiveIndex(s.phases), now);
    match v
    case DoPause => PauseAt(s, now);
    case DoResume => ResumeAt(s, now);
    case DoAdvance => AdvanceAt(s, now);
    case DoStop => StopAt(s, now);
    case DoFinish(prior) => DoneAt(s, now, prior);
  }

  lemma PauseAt(s: Session, now: Instant)
    requires Pause(s, now).Some?
    ensures AllAt(Pause(s, now).value.steps, now)
  {
    var k := LiveIndex(s.phases);
    SkipsAt(s.phases[k := s.phases[k].(status := Abandoned, ended := Some(now), pauseStarted := None)], now);
  }

  lemma ResumeAt(s: Session, now: Instant)
    requires Resume(s, now).Some?
    ensures AllAt(Resume(s, now).value.steps, now)
  {
    var k := LiveIndex(s.phases);
    SkipsAt(s.phases[k := Overflown(s.phases[k], now, now)], now);
  }

  lemma AdvanceAt(s: Session, now: Instant)
    requires Advance(s, now).Some?
    ensures AllAt(Advance(s, now).value.steps, now)
  {}

  lemma StopAt(s: Session, now: Instant)
    requires LiveIndex(s.phases) < |s.phases| ==> !s.phases[LiveIndex(s.phases)].kind.Stopwatch?
    ensures AllAt(Stop(s, now).steps, now)
  {
    var k := LiveIndex(s.phases);
    if k == |s.phases| {
      SkipsAt(s.phases, now);
    } else if s.phases[k].kind.Speedrun? {
      AbandonAt(s, k, BankOpenPause(s.phases[k], now), now, Max(0, now - OrElse(s.phases[k].started, now)), RunAbandon);
    } else {
      SkipsAt(With(s, k, EndedByStop(s.phases[k], now)).phases, now);
    }
  }

  lemma DoneAt(s: Session, now: Instant, prior: Option<int>)
    requires Done(s, now, prior).Some?
    ensures AllAt(Done(s, now, prior).value.steps, now)
  {
    hide AllAt, FinishRun, AbandonSpeedrun;
    var k := LiveIndex(s.phases);
    var elapsed := Max(0, now - OrElse(s.phases[k].started, now));
    var live := BankOpenPause(s.phases[k], now);
    AbandonAt(s, k, live, now, elapsed, Timeout);
    FinishAt(s, k, live, now, elapsed, prior);
  }

  lemma AbandonAt(s: Session, k: nat, live: Phase, now: Instant, elapsed: int, reason: Reason)
    requires k < |s.phases|
    ensures AllAt(AbandonSpeedrun(s, k, live, now, elapsed, reason).steps, now)
  {
    SkipsAt(s.phases[k := live.(status := Abandoned, ended := Some(now))], now);
  }

  lemma FinishAt(s: Session, k: nat, live: Phase, now: Instant, elapsed: int, prior: Option<int>)
    requires k < |s.phases|
    ensures AllAt(FinishRun(s, k, live, now, elapsed, prior).steps, now)
  {}

  lemma NoStopwatchPhase(s: Session, k: nat, now: Instant)
    requires Inv(s, now) && !IsStopwatch(s)
    ensures k < |s.phases| ==> !s.phases[k].kind.Stopwatch?
  {}
}
