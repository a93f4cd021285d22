/** What users may rely on over any run of a session. */
module SessionTheorems {
  import opened Basics
  import opened SessionTypes
  import opened SessionEngine
  import opened SessionInvariant
  import opened SessionVerbs
  import opened SessionShape
  import opened SessionLedger
  import opened SessionOrder
  import opened SessionRuns
  import opened SessionVerbLaws

  ghost predicate RunsTo(calls: seq<Call>, end: Instant) { forall i :: 0 <= i < |calls| ==> calls[i].now <= end }

  // --- Whatever the clock reads -----------------------------------------------------------

  /** Shape on every run: terminal phases, one live, pending ones; nothing open once the
      session is over; a timer session only ends cleanly with a completed focus phase. */
  lemma RunShape(s: Session, calls: seq<Call>)
    requires Shape(s)
    ensures
      var s' := Run(s, calls).session;
      && SamePlan(s, s')
      && Ordered(s'.phases)
      && (!s'.status.Running? ==> s'.endedAt.Some? && AllTerminal(s'.phases))
      && (s'.status.Ended? && IsTimer(s) ==> CompletedFocusCount(s'.phases) > 0)
      && (s'.status.Running? ==> forall i :: 0 <= i < |s'.phases| && s'.phases[i].Terminal() ==>
            CleanlyOver(s'.phases[i]))
      && (forall i :: 0 <= i < |s'.phases| ==> RowShape(s'.phases[i]) && RowGrows(s.phases[i], s'.phases[i]))
      && (!s.status.Running? ==> s' == s)
  {
    hide Run;
    RunPosts(s, calls);
  }

  /** HP is charged once: at most one abandon step, none for a speedrun, and a manual stop
      or an absence only abandons a session that completed no focus phase. */
  lemma AbandonsOnce(s: Session, calls: seq<Call>, i: nat)
    requires Shape(s)
    requires i < |Run(s, calls).steps| && Run(s, calls).steps[i].kind.SessionAbandoned?
    ensures
      var m := Run(s, calls);
      && m.session.status.Dead? && !IsSpeedrun(s)
      && m.session.endedAt == Some(m.steps[i].at)
      && (m.steps[i].reason in {Some(AbsenceGrace), Some(ManualStop)} ==> CompletedFocusCount(m.session.phases) == 0)
      && (forall j :: 0 <= j < |m.steps| && m.steps[j].kind.SessionAbandoned? ==> j == i)
  {
    hide Shape, Run;
    RunPosts(s, calls);
    var m := Run(s, calls);
    assert Posted(m.session, KeyOf(m.steps[i])) && Truthful(m.session, m.steps[i]);
  }

  /** A speedrun has one verdict: won or failed, once. */
  lemma SpeedrunOneVerdict(s: Session, calls: seq<Call>, i: nat, j: nat)
    requires Shape(s)
    requires i < |Run(s, calls).steps| && j < |Run(s, calls).steps|
    requires Run(s, calls).steps[i].kind in {SpeedrunCompleted, SpeedrunFailed}
    requires Run(s, calls).steps[j].kind in {SpeedrunCompleted, SpeedrunFailed}
    ensures i == j && IsSpeedrun(s)
    ensures Run(s, calls).session.status.Ended? <==> Run(s, calls).steps[i].kind.SpeedrunCompleted?
  {
    hide Shape, Run;
    RunPosts(s, calls);
    var m := Run(s, calls);
    assert Posted(m.session, KeyOf(m.steps[i])) && Posted(m.session, KeyOf(m.steps[j]));
  }

  // --- When the clock does not run backwards ------------------------------------------------

  /** Every completed phase accounts for its time: its books balance to the second. */
  lemma RunBooks(s: Session, c: Instant, calls: seq<Call>, end: Instant, i: nat)
    requires Resting(s, c) && Clocked(calls, c) && c <= end && RunsTo(calls, end)
    requires i < |Run(s, calls).session.phases| && Run(s, calls).session.phases[i].status.Completed?
    ensures
      var s' := Run(s, calls).session;
      s'.phases[i].ended.Some? && CompletedBooks(s', s'.phases[i])
  {
    hide Posts, Run;
    RunGood(s, c, calls, end);
    var s' := Run(s, calls).session;
    assert PhaseOk(s', s'.phases[i], end);
  }

  /** Steps of a timer or speedrun session never go back in time. */
  lemma RunInOrder(s: Session, c: Instant, calls: seq<Call>, end: Instant)
    requires Resting(s, c) && Clocked(calls, c) && c <= end && RunsTo(calls, end) && !IsStopwatch(s)
    ensures InOrder(Run(s, calls).steps, c, end)
  {
    hide RowsOk, StatusOk, Run, InOrder, Posts;
    RunGood(s, c, calls, end);
  }

  // --- The stopwatch -----------------------------------------------------------------------

  /** A stopped stopwatch accounts for every second and pays one milestone for each full
      1500 focused seconds, a hundred at most, at strictly increasing instants of the past. */
  lemma StopwatchPays(s: Session, now: Instant)
    requires Inv(s, now) && s.status.Running? && IsStopwatch(s)
    ensures
      var m := Stop(s, now);
      var p := m.session.phases[0];
      var count := |m.steps| - 1;
      && m.session.status.Ended? && p.status.Completed? && p.actual.Some? && p.started.Some? && p.ended == Some(now)
      && now == p.started.value + p.actual.value + p.paused
      && count == Min(100, p.actual.value / 1500)
      && m.steps[count] == Step(SessionEnded, None, now)
      && (forall i :: 0 <= i < count ==>
            m.steps[i].scored && m.steps[i].actual == Some((i + 1) * 1500) && m.steps[i].at <= now)
      && (forall i, j :: 0 <= i < j < count ==> m.steps[i].at < m.steps[j].at)
  {
    assert PhaseOk(s, s.phases[0], now);
    var p := StoppedStopwatch(s.phases[0], now);
    OnePhaseSkipsNothing(With(s, 0, p).phases, now);
    FullChunks(p.actual.value);
  }

  // --- Ledger ids ----------------------------------------------------------------------------

  /** server:s{session}:{kind}:{seq or 0}:{at}:{n or i} within one session. */
  datatype EventId = EventId(kind: StepKind, seqNo: nat, at: Instant, i: int)

  function IdOf(st: Step, i: nat): EventId {
    EventId(st.kind, SeqOrZero(st), st.at, if st.extra.PauseNumber? then st.extra.n else i)
  }

  /** Ids of one evaluation's list of steps. */
  function BatchIds(steps: seq<Step>): (ids: seq<EventId>)
    ensures |ids| == |steps|
    ensures forall i :: 0 <= i < |steps| ==> ids[i] == IdOf(steps[i], i)
  {
    seq(|steps|, i requires 0 <= i < |steps| => IdOf(steps[i], i))
  }

  /** Ids one request writes: one batch for its evaluation, one for its verb. */
  function CallIds(s: Session, call: Call): seq<EventId> {
    var m := Evaluate(s, call.now);
    match call.request
    case Poll => BatchIds(m.steps)
    case Act(v) =>
      if !s.status.Running? || Misplaced(s, v) then []
      else if !m.session.status.Running? then BatchIds(m.steps)
      else
        match Apply(m.session, v, call.now)
        case None => []
        case Some(done) =>
          BatchIds(m.steps) + BatchIds(Evaluate(done.session, call.now).steps + done.steps)
  }

  function RunIds(s: Session, calls: seq<Call>): seq<EventId>
    decreases |calls|
  {
    if |calls| == 0 then [] else CallIds(s, calls[0]) + RunIds(Transact(s, calls[0]).session, calls[1..])
  }

  /** The id determines the key of its step. */
  function KeyOfId(id: EventId): Key {
    Key(id.kind, if IsPhaseStep(id.kind) then id.seqNo else 0,
        if id.kind.PhaseCompleted? then id.at else if IsPauseStep(id.kind) then id.i else 0)
  }

  ghost predicate IdsFor(ids: seq<EventId>, steps: seq<Step>) {
    && |ids| == |steps|
    && forall i :: 0 <= i < |steps| && (IsPauseStep(steps[i].kind) ==> steps[i].extra.PauseNumber?) ==>
         KeyOfId(ids[i]) == KeyOf(steps[i])
  }

  lemma {:induction false} RunIdsFor(s: Session, calls: seq<Call>)
    ensures IdsFor(RunIds(s, calls), Run(s, calls).steps)
    decreases |calls|
  {
    hide Transact, CallIds, IdsFor;
    if |calls| == 0 {
      NoIds();
    } else {
      var m := Transact(s, calls[0]);
      CallIdsFor(s, calls[0]);
      RunIdsFor(m.session, calls[1..]);
      IdsForThen(CallIds(s, calls[0]), m.steps, RunIds(m.session, calls[1..]), Run(m.session, calls[1..]).steps);
    }
  }

  lemma NoIds()
    ensures IdsFor([], [])
  {}

  lemma IdsForThen(ids1: seq<EventId>, steps1: seq<Step>, ids2: seq<EventId>, steps2: seq<Step>)
    requires IdsFor(ids1, steps1) && IdsFor(ids2, steps2)
    ensures IdsFor(ids1 + ids2, steps1 + steps2)
  {
    hide KeyOfId, KeyOf;
  }

  lemma CallIdsFor(s: Session, call: Call)
    ensures IdsFor(CallIds(s, call), Transact(s, call).steps)
  {
    hide Evaluate, Apply;
  }

  /** Over any list of calls no two transitions share a ledger id, and none takes the id of the
      session_started or first phase_started row written at `at`: dedupe never drops a real
      transition. */
  lemma IdsDistinct(s: Session, calls: seq<Call>, at: Instant)
    requires Shape(s) && |s.phases| > 0 && !s.phases[0].status.Pending?
    ensures forall i, j :: 0 <= i < j < |RunIds(s, calls)| ==> RunIds(s, calls)[i] != RunIds(s, calls)[j]
    ensures forall i :: 0 <= i < |RunIds(s, calls)| ==>
      RunIds(s, calls)[i] !in {IdOf(Step(SessionStarted, None, at), 0), IdOf(Step(PhaseStarted, Some(0), at), 1)}
  {
    hide Shape, Run, RunIds, Truthful;
    RunPosts(s, calls);
    RunIdsFor(s, calls);
    PostedHavePauseNumbers(s, Run(s, calls));
    var m, ids := Run(s, calls), RunIds(s, calls);
    forall i | 0 <= i < |ids| ensures KeyOfId(ids[i]) == KeyOf(m.steps[i]) && !Posted(s, KeyOfId(ids[i])) {}
    assert Posted(s, Key(SessionStarted, 0, 0)) && Posted(s, Key(PhaseStarted, 0, 0));
  }

  lemma PostedHavePauseNumbers(s: Session, m: Move)
    requires Posts(s, m)
    ensures forall i :: 0 <= i < |m.steps| && IsPauseStep(m.steps[i].kind) ==> m.steps[i].extra.PauseNumber?
  {}
}
