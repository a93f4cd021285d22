/** What the steps say about the session: each transition is posted once, and what it
    says stays true of the rows for ever. */
module SessionLedger {
  import opened Basics
  import opened SessionTypes
  import opened SessionEngine
  import opened SessionInvariant
  import opened SessionVerbs
  import opened SessionShape

  /** The part of a server event id that tells transitions of one session apart:
      `tag` is the pause number of a pause or resume, the instant of a completion. */
  datatype Key = Key(kind: StepKind, seqNo: nat, tag: int)

  function SeqOrZero(st: Step): nat { if st.phaseSeq.Some? then st.phaseSeq.value else 0 }

  /** Steps about one phase, against steps about the session as a whole. */
  predicate IsPhaseStep(kind: StepKind) {
    kind.PhaseCompleted? || kind.PhaseStarted? || kind.PhaseSkipped? || kind.PhaseAbandoned? || IsPauseStep(kind)
  }

  predicate IsPauseStep(kind: StepKind) { kind.PhasePaused? || kind.PhaseResumed? }

  function KeyOf(st: Step): Key {
    Key(st.kind, if IsPhaseStep(st.kind) then SeqOrZero(st) else 0,
        if st.kind.PhaseCompleted? then st.at
        else if IsPauseStep(st.kind) && st.extra.PauseNumber? then st.extra.n
        else 0)
  }

  predicate KeyWasPosted(p: Phase, key: Key) {
    match key.kind
    case PhaseCompleted => p.status.Completed?
    case PhaseStarted => !p.status.Pending?
    case PhasePaused => !p.status.Pending? && key.tag <= p.pauseCount
    case PhaseResumed =>
      !p.status.Pending? && key.tag <= p.pauseCount && (key.tag == p.pauseCount ==> !p.status.Paused?)
    case PhaseSkipped => p.status.Skipped?
    case PhaseAbandoned => p.status.Abandoned?
    case _ => false
  }

  /** The rows show that a step with this key may already have been posted. */
  ghost predicate Posted(s: Session, key: Key) {
    match key.kind
    case SessionStarted => true
    case SessionEnded => s.status.Ended?
    case SessionAbandoned => s.status.Dead? && !IsSpeedrun(s)
    case SpeedrunCompleted => s.status.Ended? && IsSpeedrun(s)
    case RecordSet => s.status.Ended? && IsSpeedrun(s)
    case SpeedrunFailed => s.status.Dead? && IsSpeedrun(s)
    case _ => key.seqNo < |s.phases| && KeyWasPosted(s.phases[key.seqNo], key)
  }

  /** A phase step agrees with the columns of its row. */
  predicate RowSays(p: Phase, st: Step) {
    && (st.kind.PhaseStarted? ==> p.started == Some(st.at))
    && (st.kind.PhaseCompleted? && !st.extra.Milestone? ==> p.ended == Some(st.at) && p.actual == st.actual)
    && (st.kind.PhaseSkipped? ==> p.status.Skipped? && p.ended == Some(st.at))
    && (st.kind.PhaseAbandoned? ==> p.status.Abandoned? && p.ended == Some(st.at))
  }

  /** What a posted step promises about the session it was posted for. */
  ghost predicate Truthful(s: Session, st: Step) {
    && (IsPauseStep(st.kind) ==> st.extra.PauseNumber?)
    && (st.phaseSeq.Some? ==> st.phaseSeq.value < |s.phases| && RowSays(s.phases[st.phaseSeq.value], st))
    && (st.kind.SessionEnded? || st.kind.SessionAbandoned? || st.kind.SpeedrunFailed? ==> s.endedAt == Some(st.at))
    && (st.kind.SessionAbandoned? && st.reason in {Some(AbsenceGrace), Some(ManualStop)} ==>
        CompletedFocusCount(s.phases) == 0)
  }

  /** How rows move: forward only, and never once they are over. */
  predicate RowGrows(p: Phase, p': Phase) {
    && (p.Terminal() ==> p' == p)
    && (!p.status.Pending? ==> !p'.status.Pending? && p'.started == p.started)
    && p.pauseCount <= p'.pauseCount
    && (p.status.Active? && p'.pauseCount == p.pauseCount ==> !p'.status.Paused?)
  }

  ghost predicate Grows(s: Session, s': Session) {
    && SamePlan(s, s')
    && (!s.status.Running? ==> s' == s)
    && forall i :: 0 <= i < |s.phases| ==> RowGrows(s.phases[i], s'.phases[i])
  }

  lemma GrowsKeepsPosted(s: Session, s': Session, key: Key)
    requires Grows(s, s') && Posted(s, key)
    ensures Posted(s', key)
  {
    assert key.seqNo < |s.phases| ==> RowGrows(s.phases[key.seqNo], s'.phases[key.seqNo]);
  }

  lemma GrowsKeepsTruth(s: Session, s': Session, st: Step)
    requires Grows(s, s') && Truthful(s, st) && Posted(s, KeyOf(st))
    ensures Truthful(s', st)
  {
    assert st.phaseSeq.Some? ==> RowGrows(s.phases[st.phaseSeq.value], s'.phases[st.phaseSeq.value]);
  }

  /** A move posts new, distinct, truthful steps. */
  ghost predicate Posts(s: Session, m: Move) {
    && Grows(s, m.session)
    && (forall i :: 0 <= i < |m.steps| ==>
          && !Posted(s, KeyOf(m.steps[i]))
          && Posted(m.session, KeyOf(m.steps[i]))
          && Truthful(m.session, m.steps[i]))
    && (forall i, j :: 0 <= i < j < |m.steps| ==> KeyOf(m.steps[i]) != KeyOf(m.steps[j]))
  }

  lemma GrowsTrans(a: Session, b: Session, c: Session)
    requires Grows(a, b) && Grows(b, c)
    ensures Grows(a, c)
  {
    forall i | 0 <= i < |a.phases| ensures RowGrows(a.phases[i], c.phases[i]) {
      assert RowGrows(a.phases[i], b.phases[i]) && RowGrows(b.phases[i], c.phases[i]);
    }
  }

  lemma PostsThen(s: Session, m1: Move, m2: Move)
    requires Posts(s, m1) && Posts(m1.session, m2)
    ensures Posts(s, Move(m2.session, m1.steps + m2.steps))
  {
    GrowsTrans(s, m1.session, m2.session);
    var steps := m1.steps + m2.steps;
    forall i | 0 <= i < |steps|
      ensures !Posted(s, KeyOf(steps[i])) && Posted(m2.session, KeyOf(steps[i])) && Truthful(m2.session, steps[i])
    {
      if i < |m1.steps| {
        GrowsKeepsPosted(m1.session, m2.session, KeyOf(m1.steps[i]));
        GrowsKeepsTruth(m1.session, m2.session, m1.steps[i]);
      } else if Posted(s, KeyOf(steps[i])) {
        GrowsKeepsPosted(s, m1.session, KeyOf(steps[i]));
      }
    }
  }

  // --- Building blocks ---------------------------------------------------------------

  predicate Numbered(ps: seq<Phase>) { forall i :: 0 <= i < |ps| ==> ps[i].seqNo == i }

  lemma SkipStepsAre(ps: seq<Phase>, at: Instant)
    requires Numbered(ps)
    ensures forall j :: 0 <= j < |SkipSteps(ps, at)| ==>
      var st := SkipSteps(ps, at)[j];
      SeqOrZero(st) < |ps| && ps[SeqOrZero(st)].status.Pending? && st == Step(PhaseSkipped, Some(SeqOrZero(st)), at)
    ensures forall a, b :: 0 <= a < b < |SkipSteps(ps, at)| ==>
      SeqOrZero(SkipSteps(ps, at)[a]) < SeqOrZero(SkipSteps(ps, at)[b])
  {
    if |ps| > 0 { SkipStepsAre(ps[..|ps| - 1], at); }
  }

  /** The step that closes a session, and what it says. */
  ghost predicate Closes(s: Session, status: SessionStatus, at: Instant, final: Step) {
    && final.at == at
    && (|| (final.kind.SessionEnded? && status.Ended? && final.phaseSeq.None?)
        || (&& final.kind.SessionAbandoned? && status.Dead? && !IsSpeedrun(s)
            && (final.phaseSeq.Some? ==> final.phaseSeq.value < |s.phases|)
            && (final.reason in {Some(AbsenceGrace), Some(ManualStop)} ==> CompletedFocusCount(s.phases) == 0)))
  }

  lemma CloseGrows(s: Session, status: SessionStatus, at: Instant)
    requires s.status.Running?
    ensures Grows(s, Close(s, status, at))
  {}

  lemma CloseCountsNone(ps: seq<Phase>, at: Instant)
    requires CompletedFocusCount(ps) == 0
    ensures CompletedFocusCount(SkipPending(ps, at)) == 0
  {}

  lemma SkipPosts(s: Session, status: SessionStatus, at: Instant, i: nat)
    requires s.status.Running? && Numbered(s.phases) && i < |SkipSteps(s.phases, at)|
    ensures
      var st, s' := SkipSteps(s.phases, at)[i], Close(s, status, at);
      !Posted(s, KeyOf(st)) && Posted(s', KeyOf(st)) && Truthful(s', st)
  {
    hide CompletedFocusCount;
    SkipStepsAre(s.phases, at);
  }

  lemma FinalPosts(s: Session, status: SessionStatus, at: Instant, final: Step)
    requires s.status.Running? && Closes(s, status, at, final)
    ensures
      var s' := Close(s, status, at);
      !Posted(s, KeyOf(final)) && Posted(s', KeyOf(final)) && Truthful(s', final)
  {
    if CompletedFocusCount(s.phases) == 0 { CloseCountsNone(s.phases, at); }
    assert IsSpeedrun(s) <==> IsSpeedrun(Close(s, status, at));
  }

  lemma ClosePosts(s: Session, status: SessionStatus, at: Instant, final: Step)
    requires s.status.Running? && Numbered(s.phases) && Closes(s, status, at, final)
    ensures Posts(s, Move(Close(s, status, at), SkipSteps(s.phases, at) + [final]))
  {
    hide Grows, Posted, Truthful, Close, CompletedFocusCount;
    var skips := SkipSteps(s.phases, at);
    var steps := skips + [final];
    CloseGrows(s, status, at);
    SkipStepsAre(s.phases, at);
    FinalPosts(s, status, at, final);
    forall i | 0 <= i < |steps|
      ensures !Posted(s, KeyOf(steps[i])) && Posted(Close(s, status, at), KeyOf(steps[i]))
              && Truthful(Close(s, status, at), steps[i])
    {
      if i < |skips| { SkipPosts(s, status, at, i); }
    }
    forall i, j | 0 <= i < j < |steps| ensures KeyOf(steps[i]) != KeyOf(steps[j]) {
      assert steps[i] == skips[i] && (j < |skips| ==> steps[j] == skips[j]);
    }
  }

  /** A step about phase k that the new row p confirms and the old one does not. */
  predicate NewsOf(was: Phase, p: Phase, k: nat, st: Step) {
    && st.phaseSeq == Some(k)
    && IsPhaseStep(st.kind)
    && (IsPauseStep(st.kind) ==> st.extra.PauseNumber?)
    && !KeyWasPosted(was, KeyOf(st)) && KeyWasPosted(p, KeyOf(st)) && RowSays(p, st)
  }

  lemma RowPosts(s: Session, s1: Session, k: nat, p: Phase, steps: seq<Step>)
    requires s.status.Running? && k < |s.phases| && s1 == With(s, k, p).(outcome := s1.outcome)
    requires RowGrows(s.phases[k], p)
    requires p.seqNo == s.phases[k].seqNo && p.kind == s.phases[k].kind && p.planned == s.phases[k].planned
    requires |steps| <= 1 && forall st :: st in steps ==> NewsOf(s.phases[k], p, k, st)
    ensures Posts(s, Move(s1, steps))
  {
    assert forall i :: 0 <= i < |steps| ==> steps[i] in steps;
  }

  /** Phase k ends as p, then the session closes. */
  lemma ClosingPosts(s: Session, s1: Session, k: nat, p: Phase, steps: seq<Step>,
                     status: SessionStatus, at: Instant, final: Step)
    requires s.status.Running? && k < |s.phases| && s1 == With(s, k, p).(outcome := s1.outcome)
    requires RowGrows(s.phases[k], p) && Numbered(s.phases)
    requires p.seqNo == s.phases[k].seqNo && p.kind == s.phases[k].kind && p.planned == s.phases[k].planned
    requires |steps| <= 1 && forall st :: st in steps ==> NewsOf(s.phases[k], p, k, st)
    requires Closes(s1, status, at, final)
    ensures Posts(s, Move(Close(s1, status, at), steps + SkipSteps(s1.phases, at) + [final]))
  {
    RowPosts(s, s1, k, p, steps);
    ClosePosts(s1, status, at, final);
    PostsThen(s, Move(s1, steps), Move(Close(s1, status, at), SkipSteps(s1.phases, at) + [final]));
    assert steps + (SkipSteps(s1.phases, at) + [final]) == steps + SkipSteps(s1.phases, at) + [final];
  }

  // --- The clock's transitions ---------------------------------------------------------

  lemma StartPosts(s: Session, n: nat, at: Instant)
    requires s.status.Running? && Numbered(s.phases) && n < |s.phases| && s.phases[n].status.Pending?
    ensures Posts(s, StartPhase(s, n, at))
  {
    RowPosts(s, StartPhase(s, n, at).session, n, StartedAt(s.phases[n], at), StartPhase(s, n, at).steps);
  }

  lemma CompletePhasePosts(s: Session, k: nat, end: Instant)
    requires s.status.Running? && Numbered(s.phases) && k < |s.phases| && s.phases[k].status.Active?
    ensures Posts(s, CompletePhase(s, k, end))
  {
    var cur := s.phases[k];
    var done := Step(PhaseCompleted, Some(cur.seqNo), end, Some(cur.planned), cur.kind.Focus?);
    var s1 := With(s, k, CompletedAt(cur, end));
    RowPosts(s, s1, k, CompletedAt(cur, end), [done]);
    var n := NextPending(s1.phases);
    if n < |s1.phases| && AutoStarts(s, s1.phases[n]) {
      StartPosts(s1, n, end);
      PostsThen(s, Move(s1, [done]), StartPhase(s1, n, end));
    }
  }

  lemma ResolvePosts(s: Session, lastEnd: Instant, now: Instant)
    requires s.status.Running? && PlanOk(s) && (IsSpeedrun(s) ==> s.phases[0].IsLive())
    requires LiveIndex(s.phases) == |s.phases|
    ensures Posts(s, ResolveNoLive(s, lastEnd, now))
  {
    if NextPending(s.phases) == |s.phases| {
      NothingToSkip(s.phases, lastEnd);
      ClosePosts(s, Ended, lastEnd, Step(SessionEnded, None, lastEnd));
      assert [] + [Step(SessionEnded, None, lastEnd)] == [Step(SessionEnded, None, lastEnd)];
      assert Close(s, Ended, lastEnd) == s.(status := Ended, endedAt := Some(lastEnd));
    } else if lastEnd + GRACE_SECONDS <= now {
      var at := lastEnd + GRACE_SECONDS;
      if CompletedFocusCount(s.phases) == 0 {
        ClosePosts(s, Dead, at, Step(SessionAbandoned, None, at, reason := Some(AbsenceGrace)));
      } else {
        ClosePosts(s, Ended, at, Step(SessionEnded, None, at));
      }
    }
  }

  /** The dead phase and the abandon step of a violated pause budget. */
  lemma OverflowPosts(s: Session, k: nat, dead: Phase, at: Instant)
    requires s.status.Running? && Numbered(s.phases) && k < |s.phases| && s.phases[k].IsLive() && s.phases[k].kind.Focus?
    requires dead == s.phases[k].(status := Abandoned, ended := dead.ended, paused := dead.paused,
                                  pauseStarted := dead.pauseStarted)
    ensures Posts(s, Overflow(s, k, dead, at))
  {
    var final := Step(SessionAbandoned, Some(dead.seqNo), at, reason := Some(PauseOverflow));
    var s1 := s.(phases := s.phases[k := dead], outcome := s.outcome);
    assert s1.phases[k].kind.Focus?;
    ClosingPosts(s, s1, k, dead, [], Dead, at, final);
    assert [] + SkipSteps(s1.phases, at) == SkipSteps(s1.phases, at);
  }

  /** A speedrun is over: its one phase becomes p. */
  lemma SpeedrunPosts(s: Session, s': Session, steps: seq<Step>)
    requires s.status.Running? && IsSpeedrun(s) && s.phases[0].IsLive() && Numbered(s.phases)
    requires SamePlan(s, s') && !s'.status.Running? && s'.phases[0].Terminal()
    requires s'.phases[0].started == s.phases[0].started && s'.phases[0].pauseCount == s.phases[0].pauseCount
    requires forall st :: st in steps ==>
      || NewsOf(s.phases[0], s'.phases[0], 0, st)
      || (&& s'.endedAt == Some(st.at) && (st.phaseSeq.Some? ==> st.phaseSeq.value == 0)
          && if s'.status.Ended? then st.kind.SpeedrunCompleted? || st.kind.RecordSet? || st.kind.SessionEnded?
             else st.kind.SpeedrunFailed?)
    requires forall i, j :: 0 <= i < j < |steps| ==> steps[i].kind != steps[j].kind
    ensures Posts(s, Move(s', steps))
  {
    assert IsSpeedrun(s');
    assert forall i :: 0 <= i < |steps| ==> steps[i] in steps;
  }

  lemma OnePhaseSkipsNothing(ps: seq<Phase>, at: Instant)
    requires |ps| == 1 && !ps[0].status.Pending?
    ensures SkipSteps(ps, at) == [] && SkipPending(ps, at) == ps
  {
    NothingToSkip(ps, at);
  }

  lemma DeadlinePosts(s: Session, now: Instant)
    requires s.status.Running? && IsSpeedrun(s) && s.phases[0].IsLive() && Numbered(s.phases)
    requires CheckSpeedrunDeadline(s, 0, now).Some?
    ensures Posts(s, CheckSpeedrunDeadline(s, 0, now).value)
  {
    var m := CheckSpeedrunDeadline(s, 0, now).value;
    var deadline := OrElse(s.phases[0].started, now) + s.phases[0].planned;
    var dead := BankOpenPause(s.phases[0], deadline).(status := Abandoned, ended := Some(deadline));
    OnePhaseSkipsNothing(s.phases[0 := dead], deadline);
    SpeedrunPosts(s, m.session, m.steps);
  }

  /** Replaying posts each transition once, at any instant. */
  lemma {:induction false} EvaluateFromPosts(s: Session, lastEnd: Instant, now: Instant)
    requires Shape(s) && s.status.Running?
    ensures Posts(s, EvaluateFrom(s, lastEnd, now))
    decreases OpenSet(s.phases)
  {
    hide Posts, RowsShaped, StatusOk, CompletePhase, PhaseEnd, OpenSet, LiveTurn;
    var k := LiveIndex(s.phases);
    ShapedRows(s);
    if k == |s.phases| {
      ResolvePosts(s, lastEnd, now);
    } else if Elapsed(s, k, now) {
      var end := PhaseEnd(s.phases[k], now);
      var m := CompletePhase(s, k, end);
      CompletePhaseShapes(s, k, end);
      CompletionCloses(s, k, end);
      CompletePhasePosts(s, k, end);
      EvaluateFromPosts(m.session, end, now);
      LoopTurn(s, k, lastEnd, now);
      PostsThen(s, m, EvaluateFrom(m.session, end, now));
    } else {
      LoopStops(s, k, lastEnd, now);
      LivePosts(s, k, now);
    }
  }

  lemma ShapedRows(s: Session)
    requires Shape(s)
    ensures Numbered(s.phases) && PlanOk(s)
    ensures s.status.Running? && IsSpeedrun(s) ==> s.phases[0].IsLive()
  {}

  lemma StayPosts(s: Session)
    ensures Posts(s, Move(s, []))
  {}

  lemma LiveFacts(s: Session, k: nat)
    requires Shape(s) && k < |s.phases| && s.phases[k].IsLive()
    ensures Numbered(s.phases)
    ensures s.phases[k].kind.Speedrun? ==> IsSpeedrun(s) && k == 0
    ensures s.phases[k].status.Paused? ==> s.phases[k].pauseStarted.Some? && !s.phases[k].kind.Break?
  {
    LiveSplits(s, k);
  }

  lemma LivePosts(s: Session, k: nat, now: Instant)
    requires Shape(s) && s.status.Running? && k < |s.phases| && s.phases[k].IsLive()
    ensures Posts(s, LiveTurn(s, k, now))
  {
    var cur := s.phases[k];
    hide Posts, RowsShaped, StatusOk, Numbered;
    LiveFacts(s, k);
    StayPosts(s);
    if cur.kind.Speedrun? {
      if CheckSpeedrunDeadline(s, 0, now).Some? { DeadlinePosts(s, now); }
    } else if !cur.kind.Stopwatch? && cur.status.Paused? && cur.paused + PausedFor(cur, now) > s.budgetSeconds {
      PausedPosts(s, k, now);
    }
  }

  lemma PausedPosts(s: Session, k: nat, now: Instant)
    requires Shape(s) && s.status.Running? && k < |s.phases|
    requires s.phases[k].status.Paused? && s.phases[k].pauseStarted.Some?
    requires !s.phases[k].kind.Speedrun? && !s.phases[k].kind.Stopwatch?
    requires s.phases[k].paused + PausedFor(s.phases[k], now) > s.budgetSeconds
    ensures Posts(s, CheckPauseOverflow(s, k, now))
  {
    hide Posts, RowsShaped, StatusOk, Numbered;
    LiveFacts(s, k);
    OverflowPosts(s, k, Overflown(s.phases[k], CrossedAt(s, k), now), CrossedAt(s, k));
  }

  // --- The verbs ---------------------------------------------------------------------------

  lemma PausePosts(s: Session, now: Instant)
    requires Shape(s) && s.status.Running? && Pause(s, now).Some?
    ensures Posts(s, Pause(s, now).value)
  {
    hide Posts, RowsShaped, StatusOk, Numbered;
    var k := LiveIndex(s.phases);
    LiveFacts(s, k);
    var cur := s.phases[k];
    if cur.kind.Stopwatch? || cur.kind.Speedrun? || cur.pauseCount + 1 <= s.budgetCount {
      SeqOf(s, k);
      RowPosts(s, With(s, k, PausedAt(cur, now)), k, PausedAt(cur, now),
               [Step(PhasePaused, Some(cur.seqNo), now, extra := PauseNumber(cur.pauseCount + 1))]);
    } else {
      OverflowPosts(s, k, cur.(status := Abandoned, ended := Some(now), pauseStarted := None), now);
    }
  }

  lemma SeqOf(s: Session, k: nat)
    requires Numbered(s.phases) && k < |s.phases|
    ensures s.phases[k].seqNo == k
  {}

  lemma ResumePosts(s: Session, now: Instant)
    requires Shape(s) && s.status.Running? && Resume(s, now).Some?
    ensures Posts(s, Resume(s, now).value)
  {
    hide Posts, RowsShaped, StatusOk, Numbered;
    var k := LiveIndex(s.phases);
    LiveFacts(s, k);
    var cur := s.phases[k];
    if cur.kind.Focus? && cur.paused + PausedFor(cur, now) > s.budgetSeconds {
      OverflowPosts(s, k, Overflown(cur, now, now), now);
    } else {
      SeqOf(s, k);
      RowPosts(s, With(s, k, ResumedAt(cur, now)), k, ResumedAt(cur, now),
               [Step(PhaseResumed, Some(cur.seqNo), now, extra := PauseNumber(cur.pauseCount))]);
    }
  }

  lemma AdvancePosts(s: Session, now: Instant)
    requires Shape(s) && s.status.Running? && Advance(s, now).Some?
    ensures Posts(s, Advance(s, now).value)
  {
    hide Posts, RowsShaped, StatusOk, PlanOk;
    ShapedRows(s);
    var k := LiveIndex(s.phases);
    if k == |s.phases| {
      StartPosts(s, NextPending(s.phases), now);
    } else {
      SkipBreakPosts(s, k, now);
    }
  }

  lemma SkipBreakPosts(s: Session, k: nat, now: Instant)
    requires s.status.Running? && Numbered(s.phases) && Advance(s, now).Some?
    requires k == LiveIndex(s.phases) < |s.phases| && s.phases[k].status.Active? && s.phases[k].kind.Break?
    ensures Posts(s, Advance(s, now).value)
  {
    hide Posts;
    var skip := Step(PhaseSkipped, Some(k), now);
    var s1 := With(s, k, SkippedAt(s.phases[k], now));
    RowPosts(s, s1, k, SkippedAt(s.phases[k], now), [skip]);
    var n := NextPending(s1.phases);
    if n < |s1.phases| {
      StartPosts(s1, n, now);
      PostsThen(s, Move(s1, [skip]), StartPhase(s1, n, now));
    } else {
      var final := Step(SessionEnded, None, now);
      NothingToSkip(s1.phases, now);
      ClosePosts(s1, Ended, now, final);
      assert Close(s1, Ended, now) == s1.(status := Ended, endedAt := Some(now));
      PostsThen(s, Move(s1, [skip]), Move(Close(s1, Ended, now), SkipSteps(s1.phases, now) + [final]));
      assert [skip] + ([] + [final]) == [skip, final];
    }
  }

  // --- stop ---

  lemma StopTimerPosts(s: Session, k: nat, now: Instant)
    requires s.status.Running? && Numbered(s.phases) && !IsSpeedrun(s) && k < |s.phases|
    requires s.phases[k].IsLive() && (s.phases[k].kind.Focus? || s.phases[k].kind.Break?)
    ensures Posts(s, StopTimer(s, k, now))
  {
    hide Posts;
    var p := EndedByStop(s.phases[k], now);
    var s1 := With(s, k, p);
    var abandoned := CompletedFocusCount(s1.phases) == 0;
    var final :=
      if abandoned then Step(SessionAbandoned, Some(s.phases[k].seqNo), now, reason := Some(ManualStop))
      else Step(SessionEnded, None, now);
    ClosingPosts(s, s1, k, p, [StopStep(p, now)], if abandoned then Dead else Ended, now, final);
  }

  lemma StopIdlePosts(s: Session, now: Instant)
    requires s.status.Running? && Numbered(s.phases) && !IsSpeedrun(s)
    ensures Posts(s, StopTimer(s, |s.phases|, now))
  {
    hide Posts;
    var abandoned := CompletedFocusCount(s.phases) == 0;
    var final :=
      if abandoned then Step(SessionAbandoned, None, now, reason := Some(ManualStop))
      else Step(SessionEnded, None, now);
    ClosePosts(s, if abandoned then Dead else Ended, now, final);
    assert [] + SkipSteps(s.phases, now) == SkipSteps(s.phases, now);
  }

  lemma StopwatchPosts(s: Session, now: Instant)
    requires s.status.Running? && IsStopwatch(s) && s.phases[0].IsLive() && Numbered(s.phases)
    ensures Posts(s, Stop(s, now))
  {
    var p := StoppedStopwatch(s.phases[0], now);
    var m := Stop(s, now);
    var s1 := With(s, 0, p);
    OnePhaseSkipsNothing(s1.phases, now);
    var marks := Milestones(p.seqNo, OrElse(p.started, now), p.paused, MilestoneCount(p.actual.value));
    assert m.steps == marks + [Step(SessionEnded, None, now)];
    assert forall i :: 0 <= i < |marks| ==> m.steps[i] == marks[i];
  }

  lemma AbandonPosts(s: Session, now: Instant, elapsed: int, reason: Reason)
    requires s.status.Running? && IsSpeedrun(s) && s.phases[0].IsLive() && Numbered(s.phases)
    ensures Posts(s, AbandonSpeedrun(s, 0, BankOpenPause(s.phases[0], now), now, elapsed, reason))
  {
    hide Posts;
    var live := BankOpenPause(s.phases[0], now);
    var dead := live.(status := Abandoned, ended := Some(now));
    OnePhaseSkipsNothing(s.phases[0 := dead], now);
    var m := AbandonSpeedrun(s, 0, live, now, elapsed, reason);
    SpeedrunPosts(s, m.session, m.steps);
  }

  lemma StopPosts(s: Session, now: Instant)
    requires Shape(s) && s.status.Running?
    ensures Posts(s, Stop(s, now))
  {
    hide Posts, RowsShaped, StatusOk, Numbered;
    var k := LiveIndex(s.phases);
    KindOfSession(s);
    if k == |s.phases| {
      StopIdlePosts(s, now);
    } else if s.phases[k].kind.Speedrun? {
      AbandonPosts(s, now, Max(0, now - OrElse(s.phases[0].started, now)), RunAbandon);
    } else if s.phases[k].kind.Stopwatch? {
      StopwatchPosts(s, now);
    } else {
      StopTimerPosts(s, k, now);
    }
  }

  /** Exactly one mode; a stopwatch or speedrun has its one phase live while it runs. */
  lemma KindOfSession(s: Session)
    requires Shape(s) && s.status.Running?
    ensures Numbered(s.phases)
    ensures
      var k := LiveIndex(s.phases);
      if k < |s.phases| && s.phases[k].kind.Speedrun? then IsSpeedrun(s) && s.phases[0].IsLive()
      else if k < |s.phases| && s.phases[k].kind.Stopwatch? then IsStopwatch(s) && s.phases[0].IsLive()
      else !IsSpeedrun(s)
  {}

  lemma DonePosts(s: Session, now: Instant, prior: Option<int>)
    requires Shape(s) && s.status.Running? && Done(s, now, prior).Some?
    ensures Posts(s, Done(s, now, prior).value)
  {
    hide Posts, RowsShaped, StatusOk;
    KindOfSession(s);
    FinishPosts(s, now, prior);
  }

  lemma FinishPosts(s: Session, now: Instant, prior: Option<int>)
    requires s.status.Running? && IsSpeedrun(s) && s.phases[0].IsLive() && Numbered(s.phases)
    requires Done(s, now, prior).Some?
    ensures Posts(s, Done(s, now, prior).value)
  {
    hide Posts, FinishRun, AbandonSpeedrun;
    var live := BankOpenPause(s.phases[0], now);
    var elapsed := Max(0, now - OrElse(s.phases[0].started, now));
    assert SpeedrunType(s, live) == SpeedrunType(s, s.phases[0]);
    AbandonPosts(s, now, elapsed, Timeout);
    FinishRunPosts(s, now, elapsed, prior);
  }

  lemma FinishRunPosts(s: Session, now: Instant, elapsed: int, prior: Option<int>)
    requires s.status.Running? && IsSpeedrun(s) && s.phases[0].IsLive() && Numbered(s.phases)
    ensures Posts(s, FinishRun(s, 0, BankOpenPause(s.phases[0], now), now, elapsed, prior))
  {
    hide Posts, IsRecord;
    var m := FinishRun(s, 0, BankOpenPause(s.phases[0], now), now, elapsed, prior);
    assert SamePlan(s, m.session);
    forall st | st in m.steps
      ensures st == m.steps[0] || st.kind.SpeedrunCompleted? || st.kind.RecordSet? || st.kind.SessionEnded?
      ensures m.session.endedAt == Some(st.at) && (st.phaseSeq.Some? ==> st.phaseSeq.value == 0)
    {}
    assert NewsOf(s.phases[0], m.session.phases[0], 0, m.steps[0]);
    SpeedrunPosts(s, m.session, m.steps);
  }

  lemma VerbPosts(s: Session, v: Verb, now: Instant)
    requires Shape(s) && s.status.Running? && Apply(s, v, now).Some?
    ensures Posts(s, Apply(s, v, now).value)
  {
    hide Posts, Shape;
    match v
    case DoPause => PausePosts(s, now);
    case DoResume => ResumePosts(s, now);
    case DoAdvance => AdvancePosts(s, now);
    case DoStop => StopPosts(s, now);
    case DoFinish(prior) => DonePosts(s, now, prior);
  }
}
