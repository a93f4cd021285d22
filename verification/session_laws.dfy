/** What an evaluation and each verb do, row by row and step by step: said outright, by no
    function of the engine. */
module SessionLaws {
  import opened Basics
  import opened SessionTypes
  import opened SessionEngine
  import opened SessionInvariant
  import opened SessionShape
  import opened SessionLedger

  ghost predicate HasFocus(s: Session) {
    exists i :: 0 <= i < |s.phases| && s.phases[i].kind.Focus? && s.phases[i].status.Completed?
  }

  /** The row of a phase that never got to run. */
  function Passed(p: Phase, at: Instant): Phase { p.(status := Skipped, ended := Some(at)) }

  /** Seconds of the pause that is still open. */
  function Open(p: Phase, now: Instant): int {
    if p.status.Paused? && p.pauseStarted.Some? then now - p.pauseStarted.value else 0
  }

  /** The row with its open pause banked. */
  function Banked(p: Phase, now: Instant): Phase {
    p.(paused := p.paused + Open(p, now), pauseStarted := if p.status.Paused? then None else p.pauseStarted)
  }

  /** A session that closes at `at`: of the rows besides k the pending ones are passed over, with
      one step each, and the last step is `final`. */
  ghost predicate Closed(s: Session, k: nat, m: Move, status: SessionStatus, at: Instant, final: Step) {
    && m.session.status == status && m.session.endedAt == Some(at)
    && |m.session.phases| == |s.phases|
    && (forall j :: 0 <= j < |s.phases| && j != k ==>
          m.session.phases[j] == if s.phases[j].status.Pending? then Passed(s.phases[j], at) else s.phases[j])
    && (forall j :: 0 <= j < |s.phases| && j != k && s.phases[j].status.Pending? ==>
          Step(PhaseSkipped, Some(j), at) in m.steps)
    && |m.steps| > 0 && m.steps[|m.steps| - 1] == final
  }

  lemma {:induction false} SkipStepIn(ps: seq<Phase>, at: Instant, j: nat)
    requires Numbered(ps) && j < |ps| && ps[j].status.Pending?
    ensures Step(PhaseSkipped, Some(j), at) in SkipSteps(ps, at)
  {
    if j < |ps| - 1 { SkipStepIn(ps[..|ps| - 1], at, j); }
  }

  /** Closing after row k has become p. */
  lemma CloseIsClosed(s: Session, k: nat, p: Phase, outcome: Option<RunOutcome>, status: SessionStatus, at: Instant,
                      first: seq<Step>, final: Step)
    requires Numbered(s.phases) && (k < |s.phases| ==> p.seqNo == k && !p.status.Pending?)
    ensures
      var s1 := s.(phases := if k < |s.phases| then s.phases[k := p] else s.phases, outcome := outcome);
      && Closed(s, k, Move(Close(s1, status, at), first + SkipSteps(s1.phases, at) + [final]), status, at, final)
      && (k < |s.phases| ==> Close(s1, status, at).phases[k] == p)
  {
    var s1 := s.(phases := if k < |s.phases| then s.phases[k := p] else s.phases, outcome := outcome);
    var steps := first + SkipSteps(s1.phases, at) + [final];
    forall j | 0 <= j < |s.phases| && j != k && s.phases[j].status.Pending?
      ensures Step(PhaseSkipped, Some(j), at) in steps
    {
      SkipStepIn(s1.phases, at, j);
    }
  }

  // --- The replay -------------------------------------------------------------------------------

  /** Row j and the pending ones behind it wait for a tap since `end`: for the grace period, and
      then the session is over, dead if no focus phase was completed. */
  ghost predicate Waits(s: Session, j: nat, m: Move, end: Instant, now: Instant) {
    var at := end + GRACE_SECONDS;
    if now < at then
      && m.session.status.Running? && m.session.endedAt == s.endedAt
      && |m.session.phases| == |s.phases|
      && forall i :: j <= i < |s.phases| ==> m.session.phases[i] == s.phases[i]
    else
      && m.session.endedAt == Some(at) && |m.session.phases| == |s.phases|
      && (forall i :: j <= i < |s.phases| ==>
            m.session.phases[i] == Passed(s.phases[i], at) && Step(PhaseSkipped, Some(i), at) in m.steps)
      && |m.steps| > 0
      && if HasFocus(m.session)
         then m.session.status.Ended? && m.steps[|m.steps| - 1] == Step(SessionEnded, None, at)
         else m.session.status.Dead?
              && m.steps[|m.steps| - 1] == Step(SessionAbandoned, None, at, reason := Some(AbsenceGrace))
  }

  /** What comes after phase i, completed at `end`: the end of the session; or the next phase at
      once, if the toggle for its kind says so; or the wait for a tap. */
  ghost predicate Follows(s: Session, i: nat, m: Move, end: Instant, now: Instant) {
    if i + 1 >= |s.phases| then
      && m.session.status.Ended? && m.session.endedAt == Some(end)
      && |m.steps| > 0 && m.steps[|m.steps| - 1] == Step(SessionEnded, None, end)
    else
      var p := s.phases[i + 1];
      if if p.kind.Break? then s.autoBreaks else s.autoFocus then
        && |m.session.phases| == |s.phases|
        && Step(PhaseStarted, Some(i + 1), end) in m.steps
        && m.session.phases[i + 1] ==
           var over := end + p.planned + p.paused;
           if over <= now
           then p.(status := Completed, started := Some(end), actual := Some(p.planned), ended := Some(over))
           else p.(status := Active, started := Some(end))
      else Waits(s, i + 1, m, end, now)
  }

  /** Phase i ran its planned time, pauses aside, and only a focus phase is scored. */
  ghost predicate RanOut(s: Session, i: nat, m: Move, end: Instant, now: Instant)
    requires i < |s.phases| == |m.session.phases|
  {
    var p, q := s.phases[i], m.session.phases[i];
    && q == p.(status := Completed, started := q.started, actual := Some(p.planned), ended := Some(end))
    && q.started.Some? && end == q.started.value + p.planned + p.paused <= now
    && (p.IsLive() ==> q.started == p.started)
    && Step(PhaseCompleted, Some(i), end, Some(p.planned), p.kind.Focus?) in m.steps
  }

  lemma FirstPending(ps: seq<Phase>, j: nat)
    requires j <= |ps| && (j < |ps| ==> ps[j].status.Pending?)
    requires forall i :: 0 <= i < j ==> !ps[i].status.Pending?
    ensures NextPending(ps) == j
  {}

  lemma PendingWait(s: Session, j: nat, end: Instant, now: Instant)
    requires Numbered(s.phases) && s.status.Running? && j < |s.phases|
    requires forall i :: 0 <= i < |s.phases| ==> (s.phases[i].status.Pending? <==> j <= i)
    ensures Waits(s, j, ResolveNoLive(s, end, now), end, now)
  {
    hide HasFocus, Numbered, CompletedFocusCount, SkipSteps, NextPending;
    var m, at := ResolveNoLive(s, end, now), end + GRACE_SECONDS;
    FirstPending(s.phases, j);
    if at <= now {
      forall i | j <= i < |s.phases| ensures Step(PhaseSkipped, Some(i), at) in m.steps { SkipStepIn(s.phases, at, i); }
      SameFocus(s, m.session);
    }
  }

  lemma SameFocus(s: Session, s': Session)
    requires |s.phases| == |s'.phases|
    requires forall i :: 0 <= i < |s.phases| ==>
      s.phases[i].kind == s'.phases[i].kind && (s.phases[i].status.Completed? <==> s'.phases[i].status.Completed?)
    ensures HasFocus(s') <==> CompletedFocusCount(s.phases) > 0
  {
    if HasFocus(s') {
      var i :| 0 <= i < |s'.phases| && s'.phases[i].kind.Focus? && s'.phases[i].status.Completed?;
      assert IsCompletedFocus(s.phases[i]);
    }
    if CompletedFocusCount(s.phases) > 0 {
      var i :| 0 <= i < |s.phases| && IsCompletedFocus(s.phases[i]);
      assert s'.phases[i].kind.Focus?;
    }
  }

  /** One turn: live phase k is over at `end`. */
  lemma TurnRows(s: Session, k: nat, end: Instant)
    requires Shape(s) && k < |s.phases| && s.phases[k].status.Active?
    requires s.phases[k].kind.Focus? || s.phases[k].kind.Break?
    ensures IsTimer(s)
    ensures
      var m := CompletePhase(s, k, end);
      && |m.session.phases| == |s.phases|
      && m.session.status.Running? && m.session.endedAt == s.endedAt
      && m.session.autoBreaks == s.autoBreaks && m.session.autoFocus == s.autoFocus
      && m.session.phases[k] == s.phases[k].(status := Completed, actual := Some(s.phases[k].planned), ended := Some(end))
      && (forall j :: 0 <= j < k ==> m.session.phases[j] == s.phases[j] && s.phases[j].Terminal())
      && (forall j :: k + 1 < j < |s.phases| ==> m.session.phases[j] == s.phases[j] && s.phases[j].status.Pending?)
      && Step(PhaseCompleted, Some(k), end, Some(s.phases[k].planned), s.phases[k].kind.Focus?) in m.steps
      && (k + 1 < |s.phases| ==>
            s.phases[k + 1].status.Pending?
            && if if s.phases[k + 1].kind.Break? then s.autoBreaks else s.autoFocus
               then m.session.phases[k + 1] == s.phases[k + 1].(status := Active, started := Some(end))
                    && Step(PhaseStarted, Some(k + 1), end) in m.steps
               else m.session.phases[k + 1] == s.phases[k + 1])
  {
    hide Shape, IsTimer, NextPending, LiveIndex;
    LiveSplits(s, k);
    TimerPlan(s, k);
    FirstPending(With(s, k, CompletedAt(s.phases[k], end)).phases, k + 1);
    var m := CompletePhase(s, k, end);
    assert m.steps[0] in m.steps;
    if |m.steps| > 1 { assert m.steps[1] in m.steps; }
  }

  lemma TimerPlan(s: Session, k: nat)
    requires Shape(s) && k < |s.phases| && (s.phases[k].kind.Focus? || s.phases[k].kind.Break?)
    ensures IsTimer(s) && s.phases[k].seqNo == k && Numbered(s.phases)
    ensures k + 1 < |s.phases| ==> s.phases[k + 1].seqNo == k + 1
  {}

  /** A live timer phase that has not run out is left alone. */
  lemma StillRuns(s: Session, k: nat, lastEnd: Instant, now: Instant)
    requires k == LiveIndex(s.phases) < |s.phases| && s.phases[k].status.Active? && s.phases[k].started.Some?
    requires s.phases[k].kind.Focus? || s.phases[k].kind.Break?
    requires now < s.phases[k].started.value + s.phases[k].planned + s.phases[k].paused
    ensures EvaluateFrom(s, lastEnd, now) == Move(s, [])
  {
    LoopStops(s, k, lastEnd, now);
  }

  lemma LiveFirst(s: Session, k: nat)
    requires Shape(s) && k < |s.phases| && s.phases[k].IsLive()
    ensures LiveIndex(s.phases) == k && s.status.Running?
  {
    LiveSplits(s, k);
  }

  lemma OverStaysOver(s: Session, lastEnd: Instant, now: Instant, i: nat)
    requires Shape(s) && s.status.Running? && i < |s.phases| && s.phases[i].Terminal()
    ensures
      var m := EvaluateFrom(s, lastEnd, now);
      |m.session.phases| == |s.phases| && m.session.phases[i] == s.phases[i]
  {
    hide EvaluateFrom, RowsShaped, StatusOk;
    EvaluateFromPosts(s, lastEnd, now);
    assert RowGrows(s.phases[i], EvaluateFrom(s, lastEnd, now).session.phases[i]);
  }

  /** Of live phase k itself: it has run out exactly when its planned time and its pauses have. */
  lemma LiveRunsOut(s: Session, k: nat, lastEnd: Instant, now: Instant)
    requires Shape(s) && k < |s.phases| && s.phases[k].status.Active?
    requires s.phases[k].kind.Focus? || s.phases[k].kind.Break?
    ensures s.phases[k].started.Some?
    ensures
      var p, m := s.phases[k], EvaluateFrom(s, lastEnd, now);
      var end := p.started.value + p.planned + p.paused;
      && |m.session.phases| == |s.phases|
      && if end <= now
         then m.session.phases[k] == p.(status := Completed, actual := Some(p.planned), ended := Some(end))
         else m == Move(s, [])
  {
    hide Shape, EvaluateFrom, CompletePhase, LiveIndex;
    LiveRow(s, k);
    LiveFirst(s, k);
    var p := s.phases[k];
    var end := p.started.value + p.planned + p.paused;
    if end <= now {
      TurnRows(s, k, end);
      CompletePhaseShapes(s, k, end);
      LoopTurn(s, k, lastEnd, now);
      OverStaysOver(CompletePhase(s, k, end).session, end, now, k);
    } else {
      StillRuns(s, k, lastEnd, now);
    }
  }

  /** What follows the live phase when it has run out. */
  lemma LiveFollows(s: Session, k: nat, lastEnd: Instant, now: Instant)
    requires Shape(s) && Elapsed(s, k, now)
    ensures k < |s.phases| && s.phases[k].started.Some?
    ensures
      var m := EvaluateFrom(s, lastEnd, now);
      var end := s.phases[k].started.value + s.phases[k].planned + s.phases[k].paused;
      |m.session.phases| == |s.phases| && RanOut(s, k, m, end, now) && Follows(s, k, m, end, now)
  {
    hide Shape, EvaluateFrom, CompletePhase, Follows, LiveIndex, Elapsed;
    ElapsedFacts(s, k, now);
    var end := s.phases[k].started.value + s.phases[k].planned + s.phases[k].paused;
    var m1 := CompletePhase(s, k, end);
    TurnRows(s, k, end);
    LiveRunsOut(s, k, lastEnd, now);
    LoopTurn(s, k, lastEnd, now);
    assert EvaluateFrom(s, lastEnd, now)
        == Move(EvaluateFrom(m1.session, end, now).session, m1.steps + EvaluateFrom(m1.session, end, now).steps);
    RestFollows(s, k, end, now);
  }

  lemma RestFollows(s: Session, k: nat, end: Instant, now: Instant)
    requires Shape(s) && k < |s.phases| && s.phases[k].status.Active?
    requires s.phases[k].kind.Focus? || s.phases[k].kind.Break?
    ensures
      var m1 := CompletePhase(s, k, end);
      var rest := EvaluateFrom(m1.session, end, now);
      Follows(s, k, Move(rest.session, m1.steps + rest.steps), end, now)
  {
    hide Shape, EvaluateFrom, CompletePhase, Waits, LiveIndex;
    var m1 := CompletePhase(s, k, end);
    var rest := EvaluateFrom(m1.session, end, now);
    TurnRows(s, k, end);
    CompletePhaseShapes(s, k, end);
    if k + 1 == |s.phases| {
      LastOneEnds(m1.session, end, now);
      assert (m1.steps + rest.steps)[|m1.steps + rest.steps| - 1] == rest.steps[|rest.steps| - 1];
    } else if if s.phases[k + 1].kind.Break? then s.autoBreaks else s.autoFocus {
      assert s.phases[k + 1].kind.Focus? || s.phases[k + 1].kind.Break?;
      LiveRunsOut(m1.session, k + 1, end, now);
    } else {
      NextWaits(m1.session, k + 1, end, now);
      WaitsOn(s, m1, k + 1, rest, end, now);
    }
  }

  lemma LastOneEnds(s: Session, end: Instant, now: Instant)
    requires s.status.Running? && forall i :: 0 <= i < |s.phases| ==> s.phases[i].Terminal()
    ensures
      var m := EvaluateFrom(s, end, now);
      m.session.status.Ended? && m.session.endedAt == Some(end) && m.steps == [Step(SessionEnded, None, end)]
  {
    assert LiveIndex(s.phases) == |s.phases| && NextPending(s.phases) == |s.phases|;
  }

  lemma NextWaits(s: Session, j: nat, end: Instant, now: Instant)
    requires Shape(s) && s.status.Running? && j < |s.phases|
    requires forall i :: 0 <= i < j ==> s.phases[i].Terminal()
    requires forall i :: j <= i < |s.phases| ==> s.phases[i].status.Pending?
    ensures Waits(s, j, EvaluateFrom(s, end, now), end, now)
  {
    ShapedRows(s);
    hide Waits, Shape, ResolveNoLive;
    assert LiveIndex(s.phases) == |s.phases|;
    LoopEnds(s, end, now);
    PendingWait(s, j, end, now);
  }

  /** Rows that wait after one turn have waited all along. */
  lemma WaitsOn(s: Session, m1: Move, j: nat, rest: Move, end: Instant, now: Instant)
    requires Waits(m1.session, j, rest, end, now)
    requires |m1.session.phases| == |s.phases| && m1.session.endedAt == s.endedAt
    requires forall i :: j <= i < |s.phases| ==> m1.session.phases[i] == s.phases[i]
    ensures Waits(s, j, Move(rest.session, m1.steps + rest.steps), end, now)
  {
    hide HasFocus;
    if |rest.steps| > 0 {
      assert (m1.steps + rest.steps)[|m1.steps + rest.steps| - 1] == rest.steps[|rest.steps| - 1];
    }
  }

  lemma NoTurnNoCompletion(s: Session, lastEnd: Instant, now: Instant, i: nat)
    requires Shape(s) && s.status.Running? && i < |s.phases| && !s.phases[i].status.Completed?
    requires forall k :: !Elapsed(s, k, now)
    ensures
      var m := EvaluateFrom(s, lastEnd, now);
      |m.session.phases| == |s.phases| && !m.session.phases[i].status.Completed?
  {
    hide Shape, EvaluateFrom, Elapsed, LiveTurn, ResolveNoLive;
    var k := LiveIndex(s.phases);
    if k < |s.phases| {
      LoopStops(s, k, lastEnd, now);
      TurnCompletesNothing(s, k, now, i);
    } else {
      LoopEnds(s, lastEnd, now);
      GraceCompletesNothing(s, lastEnd, now, i);
    }
  }

  lemma TurnCompletesNothing(s: Session, k: nat, now: Instant, i: nat)
    requires k < |s.phases| && i < |s.phases| && !s.phases[i].status.Completed?
    ensures
      var m := LiveTurn(s, k, now);
      |m.session.phases| == |s.phases| && !m.session.phases[i].status.Completed?
  {}

  lemma GraceCompletesNothing(s: Session, lastEnd: Instant, now: Instant, i: nat)
    requires i < |s.phases| && !s.phases[i].status.Completed?
    ensures
      var m := ResolveNoLive(s, lastEnd, now);
      |m.session.phases| == |s.phases| && !m.session.phases[i].status.Completed?
  {}

  lemma FollowsLater(s: Session, k: nat, m1: Move, i: nat, rest: Move, end: Instant, now: Instant)
    requires k < i < |s.phases| == |m1.session.phases| == |rest.session.phases|
    requires m1.session.endedAt == s.endedAt
    requires m1.session.autoBreaks == s.autoBreaks && m1.session.autoFocus == s.autoFocus
    requires forall j :: k + 1 < j < |s.phases| ==> m1.session.phases[j] == s.phases[j]
    requires Follows(m1.session, i, rest, end, now)
    ensures Follows(s, i, Move(rest.session, m1.steps + rest.steps), end, now)
  {
    hide Waits;
    if i + 1 >= |s.phases| {
      assert (m1.steps + rest.steps)[|m1.steps + rest.steps| - 1] == rest.steps[|rest.steps| - 1];
    } else if !(if s.phases[i + 1].kind.Break? then s.autoBreaks else s.autoFocus) {
      WaitsOn(s, m1, i + 1, rest, end, now);
    }
  }

  /** Every phase the replay completes has run out, and what follows it is what the toggles say. */
  lemma {:induction false} ReplayFrom(s: Session, lastEnd: Instant, now: Instant, i: nat)
    requires Shape(s) && s.status.Running? && i < |s.phases| && !s.phases[i].status.Completed?
    ensures
      var m := EvaluateFrom(s, lastEnd, now);
      && |m.session.phases| == |s.phases|
      && (m.session.phases[i].status.Completed? ==>
            m.session.phases[i].ended.Some?
            && RanOut(s, i, m, m.session.phases[i].ended.value, now)
            && Follows(s, i, m, m.session.phases[i].ended.value, now))
    decreases OpenSet(s.phases)
  {
    hide Shape, EvaluateFrom, CompletePhase, Follows, OpenSet, LiveIndex;
    if k: nat :| Elapsed(s, k, now) {
      ElapsedFacts(s, k, now);
      if i == k {
        LiveFollows(s, k, lastEnd, now);
      } else {
        var end := PhaseEnd(s.phases[k], now);
        var m1 := CompletePhase(s, k, end);
        TurnRows(s, k, end);
        CompletePhaseShapes(s, k, end);
        CompletionCloses(s, k, end);
        LoopTurn(s, k, lastEnd, now);
        var rest := EvaluateFrom(m1.session, end, now);
        if i < k {
          OverStaysOver(m1.session, end, now, i);
        } else {
          ReplayFrom(m1.session, end, now, i);
          if rest.session.phases[i].status.Completed? {
            FollowsLater(s, k, m1, i, rest, rest.session.phases[i].ended.value, now);
          }
        }
      }
    } else {
      NoTurnNoCompletion(s, lastEnd, now, i);
    }
  }

  lemma ElapsedFacts(s: Session, k: nat, now: Instant)
    requires Shape(s) && Elapsed(s, k, now)
    ensures k < |s.phases| && s.phases[k].status.Active? && (s.phases[k].kind.Focus? || s.phases[k].kind.Break?)
    ensures s.phases[k].started.Some? && s.phases[k].IsLive()
  {
    LiveSplits(s, k);
  }

  /** The replay, at any instant and on any session: a live focus phase or break is completed
      exactly when its time is up, and so is every phase started on the way; what follows a
      completed phase is decided by the toggle for the kind of the next one. */
  lemma ReplayLaw(s: Session, now: Instant, i: nat)
    requires Shape(s) && s.status.Running? && i < |s.phases| && !s.phases[i].status.Completed?
    ensures
      var p, m := s.phases[i], Evaluate(s, now);
      && |m.session.phases| == |s.phases|
      && (p.status.Active? && (p.kind.Focus? || p.kind.Break?) ==>
            (m.session.phases[i].status.Completed? <==> p.started.value + p.planned + p.paused <= now))
      && (m.session.phases[i].status.Completed? ==>
            m.session.phases[i].ended.Some?
            && RanOut(s, i, m, m.session.phases[i].ended.value, now)
            && Follows(s, i, m, m.session.phases[i].ended.value, now))
  {
    hide RowsShaped, StatusOk, EvaluateFrom, Follows, RanOut;
    var lastEnd := LastEnd(s.phases, s.startedAt);
    ReplayFrom(s, lastEnd, now, i);
    if s.phases[i].status.Active? && (s.phases[i].kind.Focus? || s.phases[i].kind.Break?) {
      LiveRunsOut(s, i, lastEnd, now);
    }
  }

  // --- The watches ------------------------------------------------------------------------------

  /** `e` is the newest end, or the start of a session in which nothing has ended. */
  ghost predicate NewestEnd(s: Session, e: Instant) {
    && (forall i :: 0 <= i < |s.phases| && s.phases[i].ended.Some? ==> s.phases[i].ended.value <= e)
    && if forall i :: 0 <= i < |s.phases| ==> s.phases[i].ended.None? then e == s.startedAt
       else exists i :: 0 <= i < |s.phases| && s.phases[i].ended == Some(e)
  }

  lemma NewestIsLast(s: Session, e: Instant)
    requires NewestEnd(s, e)
    ensures LastEnd(s.phases, s.startedAt) == e
  {
    if !(forall i :: 0 <= i < |s.phases| ==> s.phases[i].ended.None?) {
      var i :| 0 <= i < |s.phases| && s.phases[i].ended == Some(e);
      assert !NoneEnded(s.phases);
    }
  }

  /** With nothing live: the session ends with its plan, or waits for a tap since the newest end. */
  lemma WaitLaw(s: Session, j: nat, e: Instant, now: Instant)
    requires Shape(s) && s.status.Running? && NewestEnd(s, e) && j <= |s.phases|
    requires forall i :: 0 <= i < j ==> s.phases[i].Terminal()
    requires forall i :: j <= i < |s.phases| ==> s.phases[i].status.Pending?
    ensures
      var m := Evaluate(s, now);
      if j == |s.phases| then m == Move(s.(status := Ended, endedAt := Some(e)), [Step(SessionEnded, None, e)])
      else Waits(s, j, m, e, now)
  {
    hide Shape, EvaluateFrom, Waits, NewestEnd;
    NewestIsLast(s, e);
    if j == |s.phases| {
      PlanDone(s, e, now);
    } else {
      NextWaits(s, j, e, now);
    }
  }

  lemma PlanDone(s: Session, e: Instant, now: Instant)
    requires forall i :: 0 <= i < |s.phases| ==> s.phases[i].Terminal()
    ensures EvaluateFrom(s, e, now) == Move(s.(status := Ended, endedAt := Some(e)), [Step(SessionEnded, None, e)])
  {
    assert LiveIndex(s.phases) == |s.phases| && NextPending(s.phases) == |s.phases|;
  }

  /** A paused focus phase kills the session exactly when its pauses exceed the seconds budget,
      and at the instant they did. */
  lemma PauseWatchLaw(s: Session, k: nat, now: Instant)
    requires Shape(s) && k < |s.phases| && s.phases[k].status.Paused? && s.phases[k].kind.Focus?
    ensures s.phases[k].pauseStarted.Some?
    ensures
      var p, m := s.phases[k], Evaluate(s, now);
      var at := p.pauseStarted.value + (s.budgetSeconds - p.paused);
      if p.paused + Open(p, now) > s.budgetSeconds then
        && Closed(s, k, m, Dead, at, Step(SessionAbandoned, Some(k), at, reason := Some(PauseOverflow)))
        && m.session.phases[k]
             == Banked(p, now).(status := Abandoned, ended := Some(at))
      else m == Move(s, [])
  {
    hide Shape, EvaluateFrom, LiveIndex, Closed, SkipSteps;
    LiveFirst(s, k);
    LiveRow(s, k);
    TimerPlan(s, k);
    var p := s.phases[k];
    var at := p.pauseStarted.value + (s.budgetSeconds - p.paused);
    LoopStops(s, k, LastEnd(s.phases, s.startedAt), now);
    var dead := Banked(p, now).(status := Abandoned, ended := Some(at));
    var final := Step(SessionAbandoned, Some(k), at, reason := Some(PauseOverflow));
    CloseIsClosed(s, k, dead, s.outcome, Dead, at, [], final);
    assert [] + SkipSteps(s.phases[k := dead], at) == SkipSteps(s.phases[k := dead], at);
  }

  /** A speedrun fails exactly when it is time-boxed and its box is full, pauses or not, and at
      that instant; a stopwatch is left alone. */
  lemma DeadlineLaw(s: Session, k: nat, now: Instant)
    requires Shape(s) && k < |s.phases| && s.phases[k].IsLive()
    requires s.phases[k].kind.Speedrun? || s.phases[k].kind.Stopwatch?
    ensures s.phases[k].started.Some? && k == 0 && |s.phases| == 1
    ensures
      var p, m := s.phases[0], Evaluate(s, now);
      var boxed := if s.runType.Some? then s.runType.value.TimeBoxed? else p.planned > 0;
      var at := p.started.value + p.planned;
      if p.kind.Speedrun? && boxed && at <= now then
        && m.session == s.(status := Dead, endedAt := Some(at), phases := m.session.phases,
                           outcome := Some(RunOutcome(Miss, p.planned, Some(Timeout), None, None)))
        && m.session.phases
             == [Banked(p, at).(status := Abandoned, ended := Some(at))]
        && m.steps == [Step(PhaseAbandoned, Some(0), at),
                       Step(SpeedrunFailed, Some(0), at, None, true, Some(Timeout), FailedRun(TimeBoxed, p.planned))]
      else m == Move(s, [])
  {
    LiveSplits(s, k);
    OneRow(s, k);
    LoopStops(s, k, LastEnd(s.phases, s.startedAt), now);
    var p := s.phases[0];
    var at := p.started.value + p.planned;
    var dead := BankOpenPause(p, at).(status := Abandoned, ended := Some(at));
    OnePhaseSkipsNothing(s.phases[0 := dead], at);
  }

  lemma OneRow(s: Session, k: nat)
    requires Shape(s) && k < |s.phases| && (s.phases[k].kind.Speedrun? || s.phases[k].kind.Stopwatch?)
    ensures k == 0 && |s.phases| == 1 && s.phases[0].seqNo == 0
  {}
}
