/** What every reachable session looks like, and that every transition keeps it. */
module SessionInvariant {
  import opened Basics
  import opened SessionTypes
  import opened SessionEngine

  // --- Shape -----------------------------------------------------------------

  /** In seq order: terminal phases, then at most one live phase, then pending ones. */
  ghost predicate Ordered(ps: seq<Phase>) {
    forall i, j :: 0 <= i < j < |ps| && !ps[j].status.Pending? ==> ps[i].Terminal()
  }

  ghost predicate AllTerminal(ps: seq<Phase>) { forall i :: 0 <= i < |ps| ==> ps[i].Terminal() }

  ghost predicate IsTimer(s: Session) {
    forall i :: 0 <= i < |s.phases| ==> s.phases[i].kind.Focus? || s.phases[i].kind.Break?
  }

  predicate IsSpeedrun(s: Session) { |s.phases| == 1 && s.phases[0].kind.Speedrun? }

  ghost predicate IsStopwatch(s: Session) { |s.phases| == 1 && s.phases[0].kind.Stopwatch? }

  /** A plan the start request accepts: an open stopwatch, one speedrun phase, or
      a timer plan of positive legs with at least one focus leg. */
  ghost predicate PlanOk(s: Session) {
    && s.budgetCount >= 0 && s.budgetSeconds >= 0
    && (forall i :: 0 <= i < |s.phases| ==> s.phases[i].seqNo == i && s.phases[i].planned >= 0)
    && (|| IsStopwatch(s)
        || (IsSpeedrun(s) && (SpeedrunType(s, s.phases[0]).TimeBoxed? ==> s.phases[0].planned > 0))
        || (IsTimer(s)
            && (exists i :: 0 <= i < |s.phases| && s.phases[i].kind.Focus?)
            && forall i :: 0 <= i < |s.phases| ==> s.phases[i].planned > 0))
  }

  // --- Time accounting ---------------------------------------------------------

  /** Pause books of a phase that has started. */
  ghost predicate PauseBooks(s: Session, p: Phase) {
    && p.paused >= 0 && p.pauseCount >= 0
    && (p.kind.Break? ==> p.paused == 0 && p.pauseCount == 0)
    && (p.kind.Focus? ==> p.paused <= s.budgetSeconds && p.pauseCount <= s.budgetCount)
  }

  ghost predicate PhaseOk(s: Session, p: Phase, clock: Instant) {
    && (p.status.Pending? ==>
        && p.started.None? && p.ended.None? && p.pauseStarted.None? && p.actual.None?
        && p.paused == 0 && p.pauseCount == 0)
    && (p.IsLive() ==>
        && p.started.Some? && p.ended.None? && p.actual.None?
        && s.startedAt <= p.started.value
        && PauseBooks(s, p)
        && p.started.value + p.paused <= clock)
    && (p.status.Active? ==> p.pauseStarted.None?)
    && (p.status.Paused? ==>
        && !p.kind.Break?
        && p.pauseStarted.Some?
        && p.started.value + p.paused <= p.pauseStarted.value <= clock
        && (p.kind.Focus? ==> p.pauseStarted.value < p.started.value + p.planned + p.paused))
    && (p.Terminal() ==>
        p.ended.Some? && s.startedAt <= p.ended.value <= clock && p.pauseStarted.None?)
    && (p.status.Completed? ==> CompletedBooks(s, p))
  }

  /** Time conservation of a completed phase. */
  ghost predicate CompletedBooks(s: Session, p: Phase)
    requires p.ended.Some?
  {
    && p.started.Some? && p.actual.Some?
    && PauseBooks(s, p)
    && (p.kind.Focus? || p.kind.Break? ==>
        p.actual.value == p.planned && p.ended.value == p.started.value + p.planned + p.paused)
    && (p.kind.Stopwatch? ==>
        p.actual.value >= 0 && p.ended.value == p.started.value + p.actual.value + p.paused)
    && (p.kind.Speedrun? ==> p.actual.value >= 1 && p.ended.value == p.started.value + p.actual.value)
  }

  /** Phases happen one after the other. */
  ghost predicate Chronological(ps: seq<Phase>) {
    forall i, j :: 0 <= i < j < |ps| && ps[i].ended.Some? ==>
      && (ps[j].started.Some? ==> ps[i].ended.value <= ps[j].started.value)
      && (ps[j].ended.Some? ==> ps[i].ended.value <= ps[j].ended.value)
  }

  /** How a phase of a running session can be over: only breaks are ever skipped. */
  predicate CleanlyOver(p: Phase) { p.status.Completed? || (p.status.Skipped? && p.kind.Break?) }

  ghost predicate StatusOk(s: Session) {
    && (s.status.Running? ==>
        && s.endedAt.None? && s.outcome.None?
        && (forall i :: 0 <= i < |s.phases| && s.phases[i].Terminal() ==> CleanlyOver(s.phases[i]))
        && (forall i :: 0 <= i < |s.phases| && (s.phases[i].kind.Stopwatch? || s.phases[i].kind.Speedrun?) ==>
              s.phases[i].IsLive()))
    && (!s.status.Running? ==> s.endedAt.Some? && AllTerminal(s.phases))
    && (s.status.Ended? && IsTimer(s) ==> CompletedFocusCount(s.phases) > 0)
  }

  /** The phase rows, without the session's own columns. */
  ghost predicate RowsOk(s: Session, clock: Instant) {
    && PlanOk(s)
    && s.startedAt <= clock
    && Ordered(s.phases)
    && (forall i :: 0 <= i < |s.phases| ==> PhaseOk(s, s.phases[i], clock))
    && Chronological(s.phases)
  }

  /** The invariant of a session last touched no later than `clock`. */
  ghost predicate Inv(s: Session, clock: Instant) { RowsOk(s, clock) && StatusOk(s) }

  lemma InvLater(s: Session, c: Instant, now: Instant)
    requires Inv(s, c) && c <= now
    ensures Inv(s, now)
  {
    forall i | 0 <= i < |s.phases| ensures PhaseOk(s, s.phases[i], now) { assert PhaseOk(s, s.phases[i], c); }
  }

  // --- The anchor of the grace watch ---------------------------------------------

  /** `lastEnd` is what the loop variable holds: the newest end so far. */
  ghost predicate Anchor(s: Session, lastEnd: Instant) { lastEnd == LastEnd(s.phases, s.startedAt) }

  /** The anchor after phase k ends at `end`, no earlier than anything before. */
  lemma AnchorMoves(ps: seq<Phase>, ps': seq<Phase>, k: nat, end: Instant, start: Instant)
    requires k < |ps| == |ps'|
    requires ps'[k].ended == Some(end)
    requires forall i :: 0 <= i < |ps| && i != k && ps'[i].ended.Some? ==> ps'[i].ended.value <= end
    ensures LastEnd(ps', start) == end
  {
  }

  // --- Preservation ----------------------------------------------------------------

  /** Transitions never change the plan. */
  ghost predicate SamePlan(s: Session, s': Session) {
    && |s.phases| == |s'.phases|
    && (forall i :: 0 <= i < |s.phases| ==>
          && s.phases[i].seqNo == s'.phases[i].seqNo
          && s.phases[i].kind == s'.phases[i].kind
          && s.phases[i].planned == s'.phases[i].planned)
    && s.startedAt == s'.startedAt && s.runType == s'.runType
    && s.budgetCount == s'.budgetCount && s.budgetSeconds == s'.budgetSeconds
    && s.autoFocus == s'.autoFocus && s.autoBreaks == s'.autoBreaks
  }

  lemma PlanKept(s: Session, s': Session)
    requires PlanOk(s) && SamePlan(s, s')
    ensures PlanOk(s')
    ensures IsTimer(s) <==> IsTimer(s')
    ensures IsSpeedrun(s) <==> IsSpeedrun(s')
    ensures IsStopwatch(s) <==> IsStopwatch(s')
  {
    if IsTimer(s) {
      var i :| 0 <= i < |s.phases| && s.phases[i].kind.Focus?;
      assert s'.phases[i].kind.Focus?;
    }
  }

  /** A session about to close at `at`: nothing is live, everything that ended did so by then. */
  ghost predicate Closing(s: Session, at: Instant, clock: Instant) {
    && RowsOk(s, clock)
    && s.startedAt <= at <= clock
    && (forall i :: 0 <= i < |s.phases| ==> !s.phases[i].IsLive())
    && EndedBy(s.phases, at)
  }

  ghost predicate EndedBy(ps: seq<Phase>, at: Instant) {
    forall i :: 0 <= i < |ps| && ps[i].ended.Some? ==> ps[i].ended.value <= at
  }

  lemma SkipKeepsPhase(s: Session, s': Session, p: Phase, at: Instant, clock: Instant)
    requires PhaseOk(s, p, clock) && !p.IsLive()
    requires s.startedAt == s'.startedAt && s.budgetCount == s'.budgetCount && s.budgetSeconds == s'.budgetSeconds
    requires s.startedAt <= at <= clock
    ensures PhaseOk(s', SkipOne(p, at), clock)
    ensures SkipOne(p, at).Terminal()
    ensures p.status.Pending? ==> p.started.None? && p.ended.None?
  {}

  lemma SkipKeepsTime(ps: seq<Phase>, at: Instant)
    requires Chronological(ps)
    requires forall i :: 0 <= i < |ps| ==> (ps[i].status.Pending? ==> ps[i].started.None?)
    requires forall i :: 0 <= i < |ps| && ps[i].ended.Some? ==> ps[i].ended.value <= at
    requires Ordered(ps) && forall i :: 0 <= i < |ps| ==> !ps[i].IsLive()
    ensures Chronological(SkipPending(ps, at))
  {}

  lemma CloseCountsFocus(ps: seq<Phase>, at: Instant)
    requires CompletedFocusCount(ps) > 0
    ensures CompletedFocusCount(SkipPending(ps, at)) > 0
  {
    var i :| 0 <= i < |ps| && IsCompletedFocus(ps[i]);
    assert IsCompletedFocus(SkipPending(ps, at)[i]);
  }

  lemma CloseKeepsPhases(s: Session, s': Session, at: Instant, clock: Instant)
    requires Closing(s, at, clock)
    requires s' == s.(status := s'.status, endedAt := s'.endedAt, phases := SkipPending(s.phases, at))
    ensures forall i :: 0 <= i < |s'.phases| ==> PhaseOk(s', s'.phases[i], clock)
    ensures AllTerminal(s'.phases) && Chronological(s'.phases)
  {
    forall i | 0 <= i < |s'.phases|
      ensures PhaseOk(s', s'.phases[i], clock) && s'.phases[i].Terminal()
      ensures s.phases[i].status.Pending? ==> s.phases[i].started.None?
    {
      SkipKeepsPhase(s, s', s.phases[i], at, clock);
    }
    SkipKeepsTime(s.phases, at);
  }

  lemma CloseKeeps(s: Session, status: SessionStatus, at: Instant, clock: Instant)
    requires Closing(s, at, clock)
    requires !status.Running?
    requires status.Ended? && IsTimer(s) ==> CompletedFocusCount(s.phases) > 0
    ensures Inv(Close(s, status, at), clock)
    ensures SamePlan(s, Close(s, status, at))
  {
    var s' := Close(s, status, at);
    assert SamePlan(s, s');
    PlanKept(s, s');
    CloseKeepsPhases(s, s', at, clock);
    if status.Ended? && IsTimer(s) { CloseCountsFocus(s.phases, at); }
  }

  /** The live phase of an ordered session splits it into terminal and pending phases. */
  lemma AroundLive(s: Session, k: nat, clock: Instant)
    requires Inv(s, clock) && k < |s.phases| && s.phases[k].IsLive()
    ensures s.status.Running?
    ensures LiveIndex(s.phases) == k
    ensures forall i :: 0 <= i < k ==> s.phases[i].Terminal()
    ensures forall j :: k < j < |s.phases| ==> s.phases[j].status.Pending?
    ensures PhaseOk(s, s.phases[k], clock)
    ensures forall i :: 0 <= i < |s.phases| && s.phases[i].ended.Some? ==>
      i < k && s.phases[i].ended.value <= s.phases[k].started.value
  {
    assert PhaseOk(s, s.phases[k], clock);
    forall j | k < j < |s.phases| ensures s.phases[j].status.Pending? && s.phases[j].ended.None? {
      assert PhaseOk(s, s.phases[j], clock);
    }
  }

  /** Phase k, not over yet, becomes `p`: what p must satisfy for the rows to stay in order. */
  ghost predicate Fits(s: Session, k: nat, p: Phase, clock: Instant) {
    && k < |s.phases|
    && p.seqNo == s.phases[k].seqNo && p.kind == s.phases[k].kind && p.planned == s.phases[k].planned
    && PhaseOk(s, p, clock)
    && !p.status.Pending?
    && (forall i :: 0 <= i < k ==>
          && s.phases[i].Terminal()
          && (s.phases[i].ended.Some? ==>
              && (p.started.Some? ==> s.phases[i].ended.value <= p.started.value)
              && (p.ended.Some? ==> s.phases[i].ended.value <= p.ended.value)))
    && (forall j :: k < j < |s.phases| ==> s.phases[j].status.Pending?)
  }

  lemma ReplaceKeeps(s: Session, k: nat, p: Phase, clock: Instant)
    requires RowsOk(s, clock) && Fits(s, k, p, clock)
    ensures RowsOk(With(s, k, p), clock)
    ensures SamePlan(s, With(s, k, p))
  {
    var s' := With(s, k, p);
    assert SamePlan(s, s');
    PlanKept(s, s');
    ReplaceKeepsPhases(s, s', k, p, clock);
    ReplaceKeepsTime(s, k, p, clock);
  }

  lemma ReplaceKeepsPhases(s: Session, s': Session, k: nat, p: Phase, clock: Instant)
    requires RowsOk(s, clock) && Fits(s, k, p, clock) && s' == With(s, k, p)
    ensures forall i :: 0 <= i < |s'.phases| ==> PhaseOk(s', s'.phases[i], clock)
  {
    forall i | 0 <= i < |s'.phases| ensures PhaseOk(s', s'.phases[i], clock) {
      assert i != k ==> PhaseOk(s, s.phases[i], clock);
    }
  }

  lemma ReplaceKeepsTime(s: Session, k: nat, p: Phase, clock: Instant)
    requires RowsOk(s, clock) && Fits(s, k, p, clock)
    ensures Chronological(s.phases[k := p]) && Ordered(s.phases[k := p])
  {
    forall j | k < j < |s.phases| ensures s.phases[j].started.None? && s.phases[j].ended.None? {
      assert PhaseOk(s, s.phases[j], clock);
    }
  }

  // --- The loop keeps the invariant ---------------------------------------------------

  lemma CompletedFits(s: Session, k: nat, end: Instant, now: Instant)
    requires Inv(s, now) && k < |s.phases| && s.phases[k].status.Active?
    requires s.phases[k].kind.Focus? || s.phases[k].kind.Break?
    requires end == PhaseEnd(s.phases[k], now) <= now
    ensures Fits(s, k, CompletedAt(s.phases[k], end), now)
  {
    AroundLive(s, k, now);
    assert s.phases[k].planned >= 0;
  }

  lemma LiveInTime(s: Session, k: nat, end: Instant, now: Instant)
    requires Inv(s, now) && k < |s.phases| && s.phases[k].status.Active? && end == PhaseEnd(s.phases[k], now)
    ensures s.phases[k].started.Some? && s.startedAt <= s.phases[k].started.value <= end
  {
    assert PhaseOk(s, s.phases[k], now);
    assert s.phases[k].planned >= 0;
  }

  lemma CompletedKeeps(s: Session, k: nat, end: Instant, now: Instant)
    requires Inv(s, now) && k < |s.phases| && s.phases[k].status.Active?
    requires s.phases[k].kind.Focus? || s.phases[k].kind.Break?
    requires end == PhaseEnd(s.phases[k], now) <= now
    ensures Inv(With(s, k, CompletedAt(s.phases[k], end)), now) && SamePlan(s, With(s, k, CompletedAt(s.phases[k], end)))
    ensures Closing(With(s, k, CompletedAt(s.phases[k], end)), end, now)
    ensures With(s, k, CompletedAt(s.phases[k], end)).status.Running?
  {
    hide PhaseOk, PlanOk, Ordered, Chronological, Fits;
    AroundLive(s, k, now);
    CompletedFits(s, k, end, now);
    ReplaceKeeps(s, k, CompletedAt(s.phases[k], end), now);
    LiveInTime(s, k, end, now);
  }

  lemma CompletePhaseKeeps(s: Session, k: nat, end: Instant, now: Instant)
    requires Inv(s, now) && k < |s.phases| && s.phases[k].status.Active?
    requires s.phases[k].kind.Focus? || s.phases[k].kind.Break?
    requires end == PhaseEnd(s.phases[k], now) <= now
    ensures Inv(CompletePhase(s, k, end).session, now)
    ensures CompletePhase(s, k, end).session.status.Running?
    ensures SamePlan(s, CompletePhase(s, k, end).session)
    ensures Anchor(CompletePhase(s, k, end).session, end)
  {
    hide RowsOk, StatusOk, NextPending, StartPhase, LastEnd, Anchor;
    CompletedKeeps(s, k, end, now);
    var s1 := With(s, k, CompletedAt(s.phases[k], end));
    var n := NextPending(s1.phases);
    if n < |s1.phases| && AutoStarts(s, s1.phases[n]) {
      StartKeeps(s1, n, end, now);
      StartRuns(s1, n, end);
    }
    CompletionAnchors(s, k, end, now);
  }

  lemma StartRuns(s: Session, n: nat, at: Instant)
    requires n < |s.phases|
    ensures StartPhase(s, n, at).session.status == s.status
  {}

  lemma CompletionAnchors(s: Session, k: nat, end: Instant, now: Instant)
    requires Inv(s, now) && k < |s.phases| && s.phases[k].status.Active?
    requires s.phases[k].kind.Focus? || s.phases[k].kind.Break?
    requires end == PhaseEnd(s.phases[k], now) <= now
    ensures Anchor(CompletePhase(s, k, end).session, end)
  {
    hide RowsOk, StatusOk;
    CompletedKeeps(s, k, end, now);
    var s1 := With(s, k, CompletedAt(s.phases[k], end));
    var n := NextPending(s1.phases);
    if n < |s1.phases| && AutoStarts(s, s1.phases[n]) {
      StartKeeps(s1, n, end, now);
    } else {
      assert CompletePhase(s, k, end).session == s1;
    }
    AnchorMoves(s.phases, CompletePhase(s, k, end).session.phases, k, end, s.startedAt);
  }

  lemma StartKeeps(s: Session, n: nat, at: Instant, clock: Instant)
    requires Inv(s, clock) && s.status.Running? && Closing(s, at, clock)
    requires n == NextPending(s.phases) < |s.phases|
    ensures Inv(StartPhase(s, n, at).session, clock)
    ensures SamePlan(s, StartPhase(s, n, at).session)
    ensures EndedBy(StartPhase(s, n, at).session.phases, at)
  {
    StartFits(s, n, at, clock);
    ReplaceKeeps(s, n, StartedAt(s.phases[n], at), clock);
  }

  /** A pending phase may start at `at` once everything before it is over. */
  lemma StartFits(s: Session, n: nat, at: Instant, clock: Instant)
    requires Closing(s, at, clock) && n == NextPending(s.phases) < |s.phases|
    ensures Fits(s, n, StartedAt(s.phases[n], at), clock)
  {
    assert PhaseOk(s, s.phases[n], clock);
    forall i | 0 <= i < n ensures s.phases[i].Terminal() {
      assert !s.phases[i].IsLive();
    }
    forall j | n < j < |s.phases| ensures s.phases[j].status.Pending? {
      assert !s.phases[n].Terminal();
    }
  }

  /** Phase k dies at `at` and takes the session with it. */
  lemma DieKeeps(s: Session, k: nat, dead: Phase, outcome: Option<RunOutcome>, at: Instant, clock: Instant)
    requires Inv(s, clock) && k < |s.phases| && s.phases[k].IsLive()
    requires Fits(s, k, dead, clock) && dead.Terminal() && dead.ended == Some(at)
    requires s.phases[k].started.value <= at
    ensures Inv(Die(s, k, dead, outcome, at), clock)
    ensures SamePlan(s, Die(s, k, dead, outcome, at))
  {
    DyingCloses(s, k, dead, outcome, at, clock);
    hide RowsOk, StatusOk, EndedBy;
    CloseKeeps(s.(phases := s.phases[k := dead], outcome := outcome), Dead, at, clock);
  }

  lemma DyingCloses(s: Session, k: nat, dead: Phase, outcome: Option<RunOutcome>, at: Instant, clock: Instant)
    requires Inv(s, clock) && k < |s.phases| && s.phases[k].IsLive()
    requires Fits(s, k, dead, clock) && dead.Terminal() && dead.ended == Some(at)
    requires s.phases[k].started.value <= at
    ensures
      var s1 := s.(phases := s.phases[k := dead], outcome := outcome);
      Closing(s1, at, clock) && SamePlan(s, s1)
  {
    hide RowsOk, StatusOk, PhaseOk, Fits;
    ReplaceKeeps(s, k, dead, clock);
    RowsIgnoreOutcome(With(s, k, dead), s.(phases := s.phases[k := dead], outcome := outcome), clock);
    AroundLive(s, k, clock);
    DiesInTime(s, k, dead, at, clock);
  }

  lemma DiesInTime(s: Session, k: nat, dead: Phase, at: Instant, clock: Instant)
    requires Inv(s, clock) && Fits(s, k, dead, clock) && dead.Terminal() && dead.ended == Some(at)
    requires s.phases[k].IsLive() && s.phases[k].started.value <= at
    ensures s.startedAt <= at <= clock
  {
    assert PhaseOk(s, s.phases[k], clock);
  }

  lemma RowsIgnoreOutcome(s: Session, s': Session, clock: Instant)
    requires RowsOk(s, clock) && s' == s.(outcome := s'.outcome)
    ensures RowsOk(s', clock) && SamePlan(s, s')
  {
    assert SamePlan(s, s');
    PlanKept(s, s');
    forall i | 0 <= i < |s.phases| ensures PhaseOk(s', s'.phases[i], clock) {
      assert PhaseOk(s, s.phases[i], clock);
    }
  }

  lemma ResolveNoLiveKeeps(s: Session, lastEnd: Instant, now: Instant)
    requires Inv(s, now) && s.status.Running? && Anchor(s, lastEnd)
    requires LiveIndex(s.phases) == |s.phases|
    ensures Inv(ResolveNoLive(s, lastEnd, now).session, now)
    ensures SamePlan(s, ResolveNoLive(s, lastEnd, now).session)
  {
    ResolveForm(s, lastEnd, now);
    assert EndedBy(s.phases, lastEnd) && s.startedAt <= lastEnd <= now by { AnchorBounds(s, lastEnd, now); }
    if NextPending(s.phases) == |s.phases| {
      NothingLeftKeeps(s, lastEnd, now);
    } else if lastEnd + GRACE_SECONDS <= now {
      GraceKeeps(s, lastEnd + GRACE_SECONDS, now);
    }
  }

  lemma GraceKeeps(s: Session, at: Instant, now: Instant)
    requires Closing(s, at, now)
    ensures
      var s' := Close(s, if CompletedFocusCount(s.phases) == 0 then Dead else Ended, at);
      Inv(s', now) && SamePlan(s, s')
  {
    CloseKeeps(s, if CompletedFocusCount(s.phases) == 0 then Dead else Ended, at, now);
  }

  lemma NothingLeftKeeps(s: Session, lastEnd: Instant, now: Instant)
    requires Inv(s, now) && s.status.Running? && Closing(s, lastEnd, now)
    requires NextPending(s.phases) == |s.phases|
    ensures Inv(Close(s, Ended, lastEnd), now) && SamePlan(s, Close(s, Ended, lastEnd))
  {
    AllOverMeansFocusDone(s, now);
    CloseKeeps(s, Ended, lastEnd, now);
  }

  lemma ResolveForm(s: Session, lastEnd: Instant, now: Instant)
    ensures NextPending(s.phases) == |s.phases| ==>
      ResolveNoLive(s, lastEnd, now).session == Close(s, Ended, lastEnd)
    ensures NextPending(s.phases) < |s.phases| && lastEnd + GRACE_SECONDS <= now ==>
      ResolveNoLive(s, lastEnd, now).session
      == Close(s, if CompletedFocusCount(s.phases) == 0 then Dead else Ended, lastEnd + GRACE_SECONDS)
    ensures NextPending(s.phases) < |s.phases| && now < lastEnd + GRACE_SECONDS ==>
      ResolveNoLive(s, lastEnd, now).session == s
  {
    if NextPending(s.phases) == |s.phases| { NothingToSkip(s.phases, lastEnd); }
  }

  lemma NothingToSkip(ps: seq<Phase>, at: Instant)
    requires NextPending(ps) == |ps|
    ensures SkipPending(ps, at) == ps
    ensures SkipSteps(ps, at) == []
  {
    if |ps| > 0 {
      var before := ps[..|ps| - 1];
      assert forall i :: 0 <= i < |before| ==> !ps[i].status.Pending?;
      assert NextPending(before) == |before|;
      NothingToSkip(before, at);
    }
  }

  lemma AnchorBounds(s: Session, lastEnd: Instant, now: Instant)
    requires RowsOk(s, now) && Anchor(s, lastEnd)
    ensures s.startedAt <= lastEnd <= now && EndedBy(s.phases, lastEnd)
  {
    if lastEnd != s.startedAt {
      var i :| 0 <= i < |s.phases| && s.phases[i].ended == Some(lastEnd);
      assert PhaseOk(s, s.phases[i], now);
    }
  }

  /** A running timer plan with nothing left has finished a focus phase: focus legs only complete. */
  lemma AllOverMeansFocusDone(s: Session, now: Instant)
    requires RowsOk(s, now)
    requires forall i :: 0 <= i < |s.phases| ==> s.phases[i].Terminal() && CleanlyOver(s.phases[i])
    ensures IsTimer(s) ==> CompletedFocusCount(s.phases) > 0
  {
    if IsTimer(s) {
      var i :| 0 <= i < |s.phases| && s.phases[i].kind.Focus?;
      assert IsCompletedFocus(s.phases[i]);
    }
  }

  lemma PauseOverflowKeeps(s: Session, k: nat, now: Instant)
    requires Inv(s, now) && k < |s.phases| && s.phases[k].status.Paused? && s.phases[k].kind.Focus?
    ensures Inv(CheckPauseOverflow(s, k, now).session, now)
    ensures SamePlan(s, CheckPauseOverflow(s, k, now).session)
  {
    assert PhaseOk(s, s.phases[k], now);
    OverflowForm(s, k, now);
    if s.phases[k].paused + PausedFor(s.phases[k], now) > s.budgetSeconds {
      var crossed := CrossedAt(s, k);
      OverflowFits(s, k, now);
      DieKeeps(s, k, Overflown(s.phases[k], crossed, now), s.outcome, crossed, now);
    }
  }

  /** When the open pause of phase k uses up the seconds budget. */
  function CrossedAt(s: Session, k: nat): Instant
    requires k < |s.phases| && s.phases[k].pauseStarted.Some?
  {
    s.phases[k].pauseStarted.value + s.budgetSeconds - s.phases[k].paused
  }

  lemma OverflowFits(s: Session, k: nat, now: Instant)
    requires Inv(s, now) && k < |s.phases| && s.phases[k].status.Paused? && s.phases[k].kind.Focus?
    requires s.phases[k].pauseStarted.Some?
    requires s.phases[k].paused + PausedFor(s.phases[k], now) > s.budgetSeconds
    ensures Fits(s, k, Overflown(s.phases[k], CrossedAt(s, k), now), now)
    ensures s.phases[k].started.Some? && s.phases[k].started.value <= CrossedAt(s, k) <= now
  {
    AroundLive(s, k, now);
  }

  lemma OverflowForm(s: Session, k: nat, now: Instant)
    requires k < |s.phases| && s.phases[k].pauseStarted.Some?
    ensures s.phases[k].paused + PausedFor(s.phases[k], now) > s.budgetSeconds ==>
      CheckPauseOverflow(s, k, now).session
      == Die(s, k, Overflown(s.phases[k], CrossedAt(s, k), now), s.outcome, CrossedAt(s, k))
    ensures s.phases[k].paused + PausedFor(s.phases[k], now) <= s.budgetSeconds ==>
      CheckPauseOverflow(s, k, now) == Move(s, [])
  {}

  lemma DeadlineFits(s: Session, k: nat, now: Instant)
    requires Inv(s, now) && k < |s.phases| && s.phases[k].IsLive() && s.phases[k].kind.Speedrun?
    requires CheckSpeedrunDeadline(s, k, now).Some?
    ensures s.phases[k].started.Some?
    ensures
      var deadline := s.phases[k].started.value + s.phases[k].planned;
      && s.phases[k].started.value <= deadline
      && Fits(s, k, BankOpenPause(s.phases[k], deadline).(status := Abandoned, ended := Some(deadline)), now)
  {
    AroundLive(s, k, now);
  }

  lemma DeadlineForm(s: Session, k: nat, now: Instant)
    requires k < |s.phases| && s.phases[k].started.Some?
    requires CheckSpeedrunDeadline(s, k, now).Some?
    ensures
      var deadline := s.phases[k].started.value + s.phases[k].planned;
      CheckSpeedrunDeadline(s, k, now).value.session
      == Die(s, k, BankOpenPause(s.phases[k], deadline).(status := Abandoned, ended := Some(deadline)),
             Some(RunOutcome(Miss, s.phases[k].planned, Some(Timeout), None, None)), deadline)
  {}

  lemma DeadlineKeeps(s: Session, k: nat, now: Instant)
    requires Inv(s, now) && k < |s.phases| && s.phases[k].IsLive() && s.phases[k].kind.Speedrun?
    requires CheckSpeedrunDeadline(s, k, now).Some?
    ensures Inv(CheckSpeedrunDeadline(s, k, now).value.session, now)
    ensures SamePlan(s, CheckSpeedrunDeadline(s, k, now).value.session)
  {
    DeadlineFits(s, k, now);
    DeadlineForm(s, k, now);
    hide CheckSpeedrunDeadline, RowsOk, StatusOk, SamePlan, Fits, Die;
    var deadline := s.phases[k].started.value + s.phases[k].planned;
    var dead := BankOpenPause(s.phases[k], deadline).(status := Abandoned, ended := Some(deadline));
    DieKeeps(s, k, dead, Some(RunOutcome(Miss, s.phases[k].planned, Some(Timeout), None, None)), deadline, now);
  }

  lemma {:induction false} EvaluateFromKeeps(s: Session, lastEnd: Instant, now: Instant)
    requires Inv(s, now) && s.status.Running? && Anchor(s, lastEnd)
    ensures Inv(EvaluateFrom(s, lastEnd, now).session, now)
    ensures SamePlan(s, EvaluateFrom(s, lastEnd, now).session)
    decreases OpenSet(s.phases)
  {
    hide RowsOk, StatusOk, CompletePhase, ResolveNoLive, CheckPauseOverflow, CheckSpeedrunDeadline, OpenSet, LiveIndex,
      PhaseEnd;
    var k := LiveIndex(s.phases);
    if k == |s.phases| {
      ResolveNoLiveKeeps(s, lastEnd, now);
    } else {
      AroundLive(s, k, now);
      var cur := s.phases[k];
      if cur.kind.Stopwatch? {
      } else if cur.kind.Speedrun? {
        if CheckSpeedrunDeadline(s, k, now).Some? { DeadlineKeeps(s, k, now); }
      } else if cur.status.Paused? {
        PauseOverflowKeeps(s, k, now);
      } else if PhaseEnd(cur, now) <= now {
        var m := CompletePhase(s, k, PhaseEnd(cur, now));
        CompletePhaseKeeps(s, k, PhaseEnd(cur, now), now);
        CompletionCloses(s, k, PhaseEnd(cur, now));
        EvaluateFromKeeps(m.session, PhaseEnd(cur, now), now);
      }
    }
  }

  /** Evaluating later keeps every invariant of the session. */
  lemma EvaluateKeeps(s: Session, c: Instant, now: Instant)
    requires Inv(s, c) && c <= now
    ensures Inv(Evaluate(s, now).session, now)
    ensures SamePlan(s, Evaluate(s, now).session)
  {
    InvLater(s, c, now);
    if s.status.Running? { EvaluateFromKeeps(s, LastEnd(s.phases, s.startedAt), now); }
  }
}
