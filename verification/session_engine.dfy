/** The session engine as functions: each one is the meaning of the method of
    the same name in the class FocusSession. */
module SessionEngine {
  import opened Basics
  import opened SessionTypes

  /** Index of the first live phase, or the number of phases when none is live. */
  function LiveIndex(ps: seq<Phase>): (k: nat)
    ensures k <= |ps|
    ensures k < |ps| ==> ps[k].IsLive()
    ensures forall i :: 0 <= i < k ==> !ps[i].IsLive()
  {
    if |ps| == 0 || ps[0].IsLive() then 0 else 1 + LiveIndex(ps[1..])
  }

  /** Index of the first pending phase, or the number of phases when none is pending. */
  function NextPending(ps: seq<Phase>): (k: nat)
    ensures k <= |ps|
    ensures k < |ps| ==> ps[k].status.Pending?
    ensures forall i :: 0 <= i < k ==> !ps[i].status.Pending?
  {
    if |ps| == 0 || ps[0].status.Pending? then 0 else 1 + NextPending(ps[1..])
  }

  predicate IsCompletedFocus(p: Phase) { p.kind.Focus? && p.status.Completed? }

  function CompletedFocusCount(ps: seq<Phase>): (n: nat)
    ensures n == 0 <==> forall i :: 0 <= i < |ps| ==> !IsCompletedFocus(ps[i])
  {
    if |ps| == 0 then 0
    else CompletedFocusCount(ps[..|ps| - 1]) + if IsCompletedFocus(ps[|ps| - 1]) then 1 else 0
  }

  /** The newest end among the finished phases; `start` before any of them ended. */
  function LastEnd(ps: seq<Phase>, start: Instant): (e: Instant)
    ensures forall i :: 0 <= i < |ps| && ps[i].ended.Some? ==> ps[i].ended.value <= e
    ensures (e == start && NoneEnded(ps)) || exists i :: 0 <= i < |ps| && ps[i].ended == Some(e)
  {
    if |ps| == 0 then start
    else
      var p := ps[|ps| - 1];
      var before := ps[..|ps| - 1];
      var e := LastEnd(before, start);
      if p.ended.None? then e
      else if NoneEnded(before) then p.ended.value
      else Max(e, p.ended.value)
  }

  predicate NoneEnded(ps: seq<Phase>) { forall i :: 0 <= i < |ps| ==> ps[i].ended.None? }

  function OrElse(t: Option<Instant>, now: Instant): Instant {
    if t.Some? then t.value else now
  }

  function PhaseEnd(p: Phase, now: Instant): Instant {
    OrElse(p.started, now) + p.planned + p.paused
  }

  function SkipPending(ps: seq<Phase>, at: Instant): (r: seq<Phase>)
    ensures |r| == |ps|
    ensures forall i :: 0 <= i < |ps| ==> r[i] == SkipOne(ps[i], at)
  {
    seq(|ps|, i requires 0 <= i < |ps| => SkipOne(ps[i], at))
  }

  function SkipOne(p: Phase, at: Instant): Phase {
    if p.status.Pending? then p.(status := Skipped, ended := Some(at)) else p
  }

  /** One skip step for each pending phase, in seq order. */
  function SkipSteps(ps: seq<Phase>, at: Instant): (steps: seq<Step>)
    ensures forall st :: st in steps ==> st.at == at && st.kind.PhaseSkipped?
  {
    if |ps| == 0 then []
    else
      var p := ps[|ps| - 1];
      SkipSteps(ps[..|ps| - 1], at)
      + if p.status.Pending? then [Step(PhaseSkipped, Some(p.seqNo), at)] else []
  }

  /** Close the session at `at`: pending phases are skipped. */
  function Close(s: Session, status: SessionStatus, at: Instant): Session {
    s.(status := status, endedAt := Some(at), phases := SkipPending(s.phases, at))
  }

  /** Row k becomes p. */
  function With(s: Session, k: nat, p: Phase): Session
    requires k < |s.phases|
  {
    s.(phases := s.phases[k := p])
  }

  /** Phase k ends as `dead` at `at` and the session dies with it. */
  function Die(s: Session, k: nat, dead: Phase, outcome: Option<RunOutcome>, at: Instant): Session
    requires k < |s.phases|
  {
    Close(s.(phases := s.phases[k := dead], outcome := outcome), Dead, at)
  }

  function ResolveNoLive(s: Session, lastEnd: Instant, now: Instant): Move {
    if NextPending(s.phases) == |s.phases| then
      Move(s.(status := Ended, endedAt := Some(lastEnd)), [Step(SessionEnded, None, lastEnd)])
    else if now < lastEnd + GRACE_SECONDS then Move(s, [])
    else
      var at := lastEnd + GRACE_SECONDS;
      var skips := SkipSteps(s.phases, at);
      if CompletedFocusCount(s.phases) == 0 then
        Move(Close(s, Dead, at), skips + [Step(SessionAbandoned, None, at, reason := Some(AbsenceGrace))])
      else
        Move(Close(s, Ended, at), skips + [Step(SessionEnded, None, at)])
  }

  function PausedFor(p: Phase, now: Instant): int { now - OrElse(p.pauseStarted, now) }

  function Overflown(p: Phase, crossed: Instant, now: Instant): Phase {
    p.(status := Abandoned, ended := Some(crossed), paused := p.paused + PausedFor(p, now), pauseStarted := None)
  }

  function CheckPauseOverflow(s: Session, k: nat, now: Instant): Move
    requires k < |s.phases|
  {
    var cur := s.phases[k];
    if cur.paused + PausedFor(cur, now) <= s.budgetSeconds then Move(s, [])
    else
      var crossed := OrElse(cur.pauseStarted, now) + s.budgetSeconds - cur.paused;
      Overflow(s, k, Overflown(cur, crossed, now), crossed)
  }

  predicate AutoStarts(s: Session, p: Phase) {
    if p.kind.Break? then s.autoBreaks else s.autoFocus
  }

  function CompletedAt(p: Phase, end: Instant): Phase {
    p.(status := Completed, actual := Some(p.planned), ended := Some(end))
  }

  function CompletePhase(s: Session, k: nat, end: Instant): Move
    requires k < |s.phases|
  {
    var cur := s.phases[k];
    var s1 := With(s, k, CompletedAt(cur, end));
    var done := Step(PhaseCompleted, Some(cur.seqNo), end, Some(cur.planned), cur.kind.Focus?);
    var n := NextPending(s1.phases);
    if n < |s1.phases| && AutoStarts(s, s1.phases[n]) then
      var m := StartPhase(s1, n, end);
      Move(m.session, [done] + m.steps)
    else Move(s1, [done])
  }

  /** The start-time blob decides; planned seconds are the fallback. */
  function SpeedrunType(s: Session, p: Phase): RunType {
    if s.runType.Some? then s.runType.value else if p.planned > 0 then TimeBoxed else BeatBest
  }

  function BankOpenPause(p: Phase, now: Instant): Phase {
    if p.status.Paused? && p.pauseStarted.Some?
    then p.(paused := p.paused + (now - p.pauseStarted.value), pauseStarted := None)
    else p
  }

  /** None when the deadline has not passed (or there is none). */
  function CheckSpeedrunDeadline(s: Session, k: nat, now: Instant): Option<Move>
    requires k < |s.phases|
  {
    var cur := s.phases[k];
    var deadline := OrElse(cur.started, now) + cur.planned;
    if SpeedrunType(s, cur) != TimeBoxed || now < deadline then None
    else
      var dead := BankOpenPause(cur, deadline).(status := Abandoned, ended := Some(deadline));
      var missed := RunOutcome(Miss, cur.planned, Some(Timeout), None, None);
      Some(Move(Die(s, k, dead, Some(missed), deadline),
                SkipSteps(s.phases[k := dead], deadline)
                + [Step(PhaseAbandoned, Some(cur.seqNo), deadline),
                   Step(SpeedrunFailed, Some(cur.seqNo), deadline, None, true, Some(Timeout),
                        FailedRun(TimeBoxed, cur.planned))]))
  }

  /** The phases the clock can still change. */
  function OpenSet(ps: seq<Phase>): set<nat> {
    set i: nat | i < |ps| && !ps[i].Terminal()
  }

  lemma CompletionCloses(s: Session, k: nat, end: Instant)
    requires k < |s.phases| && s.phases[k].IsLive()
    ensures OpenSet(CompletePhase(s, k, end).session.phases) < OpenSet(s.phases)
  {
    var before, after := OpenSet(s.phases), OpenSet(CompletePhase(s, k, end).session.phases);
    assert k in before && k !in after;
  }

  /** The replay loop: complete elapsed phases until nothing more is due at `now`. */
  function EvaluateFrom(s: Session, lastEnd: Instant, now: Instant): Move
    decreases OpenSet(s.phases)
  {
    var k := LiveIndex(s.phases);
    if k == |s.phases| then ResolveNoLive(s, lastEnd, now)
    else
      var cur := s.phases[k];
      if cur.kind.Stopwatch? then Move(s, [])
      else if cur.kind.Speedrun? then
        var failed := CheckSpeedrunDeadline(s, k, now);
        if failed.Some? then failed.value else Move(s, [])
      else if cur.status.Paused? then CheckPauseOverflow(s, k, now)
      else
        var end := PhaseEnd(cur, now);
        if now < end then Move(s, [])
        else
          var m := CompletePhase(s, k, end);
          CompletionCloses(s, k, end);
          var rest := EvaluateFrom(m.session, end, now);
          Move(rest.session, m.steps + rest.steps)
  }

  /** One turn of the loop that completes a phase. */
  predicate Elapsed(s: Session, k: nat, now: Instant) {
    && k == LiveIndex(s.phases) < |s.phases|
    && s.phases[k].status.Active?
    && (s.phases[k].kind.Focus? || s.phases[k].kind.Break?)
    && PhaseEnd(s.phases[k], now) <= now
  }

  /** What the loop does with a live phase it does not complete. */
  function LiveTurn(s: Session, k: nat, now: Instant): Move
    requires k < |s.phases|
  {
    var cur := s.phases[k];
    if cur.kind.Speedrun? then
      var failed := CheckSpeedrunDeadline(s, k, now);
      if failed.Some? then failed.value else Move(s, [])
    else if !cur.kind.Stopwatch? && cur.status.Paused? then CheckPauseOverflow(s, k, now)
    else Move(s, [])
  }

  lemma LoopStops(s: Session, k: nat, lastEnd: Instant, now: Instant)
    requires k == LiveIndex(s.phases) < |s.phases| && !Elapsed(s, k, now)
    ensures EvaluateFrom(s, lastEnd, now) == LiveTurn(s, k, now)
  {}

  lemma LoopEnds(s: Session, lastEnd: Instant, now: Instant)
    requires LiveIndex(s.phases) == |s.phases|
    ensures EvaluateFrom(s, lastEnd, now) == ResolveNoLive(s, lastEnd, now)
  {}

  lemma LoopTurn(s: Session, k: nat, lastEnd: Instant, now: Instant)
    requires Elapsed(s, k, now)
    ensures
      var m := CompletePhase(s, k, PhaseEnd(s.phases[k], now));
      var rest := EvaluateFrom(m.session, PhaseEnd(s.phases[k], now), now);
      EvaluateFrom(s, lastEnd, now) == Move(rest.session, m.steps + rest.steps)
  {
    hide CompletePhase, ResolveNoLive, CheckPauseOverflow, CheckSpeedrunDeadline, OpenSet, LiveIndex, PhaseEnd;
  }

  function Evaluate(s: Session, now: Instant): Move {
    if !s.status.Running? then Move(s, []) else EvaluateFrom(s, LastEnd(s.phases, s.startedAt), now)
  }

  // --- Verbs: None is the ValueError the source raises ------------------------

  function PausedAt(p: Phase, now: Instant): Phase {
    p.(pauseCount := p.pauseCount + 1, pauseStarted := Some(now), status := Paused)
  }

  function Pause(s: Session, now: Instant): Option<Move> {
    var k := LiveIndex(s.phases);
    if k == |s.phases| || !s.phases[k].status.Active? || s.phases[k].kind.Break? then None
    else
      var cur := s.phases[k];
      if cur.kind.Stopwatch? || cur.kind.Speedrun? || cur.pauseCount + 1 <= s.budgetCount then
        Some(Move(With(s, k, PausedAt(cur, now)),
                  [Step(PhasePaused, Some(cur.seqNo), now, extra := PauseNumber(cur.pauseCount + 1))]))
      else
        Some(Overflow(s, k, cur.(status := Abandoned, ended := Some(now), pauseStarted := None), now))
  }

  /** A violated pause budget: phase k has just become `dead`. */
  function Overflow(s: Session, k: nat, dead: Phase, now: Instant): Move
    requires k < |s.phases|
  {
    Move(Die(s, k, dead, s.outcome, now),
         SkipSteps(s.phases[k := dead], now)
         + [Step(SessionAbandoned, Some(dead.seqNo), now, reason := Some(PauseOverflow))])
  }

  function ResumedAt(p: Phase, now: Instant): Phase {
    p.(paused := p.paused + PausedFor(p, now), pauseStarted := None, status := Active)
  }

  function Resume(s: Session, now: Instant): Option<Move> {
    var k := LiveIndex(s.phases);
    if k == |s.phases| || !s.phases[k].status.Paused? then None
    else
      var cur := s.phases[k];
      if cur.kind.Focus? && cur.paused + PausedFor(cur, now) > s.budgetSeconds then
        Some(Overflow(s, k, Overflown(cur, now, now), now))
      else
        Some(Move(With(s, k, ResumedAt(cur, now)),
                  [Step(PhaseResumed, Some(cur.seqNo), now, extra := PauseNumber(cur.pauseCount))]))
  }

  function StartedAt(p: Phase, at: Instant): Phase { p.(status := Active, started := Some(at)) }

  function StartPhase(s: Session, k: nat, now: Instant): Move
    requires k < |s.phases|
  {
    Move(With(s, k, StartedAt(s.phases[k], now)),
         [Step(PhaseStarted, Some(s.phases[k].seqNo), now)])
  }

  function SkippedAt(p: Phase, now: Instant): Phase { p.(status := Skipped, ended := Some(now)) }

  /** Skip running break k and start the next phase, or end the session. */
  function SkipBreak(s: Session, k: nat, now: Instant): Move
    requires k < |s.phases|
  {
    var skip := Step(PhaseSkipped, Some(s.phases[k].seqNo), now);
    var s1 := With(s, k, SkippedAt(s.phases[k], now));
    var n := NextPending(s1.phases);
    if n < |s1.phases| then
      var m := StartPhase(s1, n, now);
      Move(m.session, [skip] + m.steps)
    else
      Move(s1.(status := Ended, endedAt := Some(now)), [skip, Step(SessionEnded, None, now)])
  }

  function Advance(s: Session, now: Instant): Option<Move> {
    var k := LiveIndex(s.phases);
    if k < |s.phases| then
      if s.phases[k].kind.Break? && s.phases[k].status.Active? then Some(SkipBreak(s, k, now)) else None
    else
      var n := NextPending(s.phases);
      if n == |s.phases| then None else Some(StartPhase(s, n, now))
  }

  /** `live` is phase k with its open pause banked. */
  function AbandonSpeedrun(s: Session, k: nat, live: Phase, now: Instant, elapsed: int, reason: Reason): Move
    requires k < |s.phases|
  {
    var kind := SpeedrunType(s, live);
    var result := if kind.TimeBoxed? then Miss else GivenUp;
    var dead := live.(status := Abandoned, ended := Some(now));
    Move(Die(s, k, dead, Some(RunOutcome(result, elapsed, Some(reason), None, None)), now),
         [Step(PhaseAbandoned, Some(live.seqNo), now)] + SkipSteps(s.phases[k := dead], now)
         + [Step(SpeedrunFailed, Some(live.seqNo), now, None, true, Some(reason), FailedRun(kind, elapsed))])
  }

  /** Milestones i = 1.. of a stopwatch stop, 25 focused minutes apart. */
  function Milestones(seqNo: nat, started: Instant, paused: int, count: nat): (steps: seq<Step>)
    ensures |steps| == count
    ensures forall i :: 0 <= i < count ==>
      steps[i] == Step(PhaseCompleted, Some(seqNo), started + (i + 1) * 1500 + paused,
                       Some((i + 1) * 1500), true, None, Milestone(i + 1))
  {
    seq(count, i requires 0 <= i < count =>
      Step(PhaseCompleted, Some(seqNo), started + (i + 1) * 1500 + paused,
           Some((i + 1) * 1500), true, None, Milestone(i + 1)))
  }

  /** Length of range(25, bound + 1, 25) with bound = min(actual // 60, MAX_MILESTONES * 25). */
  function MilestoneCount(actual: nat): nat { Min(actual / 60, MAX_MILESTONES * 25) / 25 }

  function StoppedStopwatch(p: Phase, now: Instant): Phase {
    var elapsed := now - OrElse(p.started, now);
    var paused := p.paused + if p.status.Paused? then PausedFor(p, now) else 0;
    p.(actual := Some(Max(0, elapsed - paused)), paused := paused, pauseStarted := None,
       status := Completed, ended := Some(now))
  }

  /** The steps in the order the service persists them: scored steps, then the final one. */
  function Stop(s: Session, now: Instant): Move {
    var k := LiveIndex(s.phases);
    if k < |s.phases| && s.phases[k].kind.Speedrun? then
      var live := BankOpenPause(s.phases[k], now);
      AbandonSpeedrun(s, k, live, now, Max(0, now - OrElse(live.started, now)), RunAbandon)
    else if k < |s.phases| && s.phases[k].kind.Stopwatch? then
      var p := StoppedStopwatch(s.phases[k], now);
      var s1 := With(s, k, p);
      Move(Close(s1, Ended, now),
           Milestones(p.seqNo, OrElse(p.started, now), p.paused, MilestoneCount(p.actual.value))
           + SkipSteps(s1.phases, now) + [Step(SessionEnded, None, now)])
    else
      StopTimer(s, k, now)
  }

  /** Stopping with nothing scored is an abandon, whichever phase was live, or none. */
  function StopTimer(s: Session, k: nat, now: Instant): Move
    requires k <= |s.phases|
  {
    var live := k < |s.phases|;
    var s1 := if live then With(s, k, EndedByStop(s.phases[k], now)) else s;
    var first := if live then [StopStep(s1.phases[k], now)] else [];
    var abandoned := CompletedFocusCount(s1.phases) == 0;
    Move(Close(s1, if abandoned then Dead else Ended, now),
         first + SkipSteps(s1.phases, now)
         + [if abandoned
            then Step(SessionAbandoned, if live then Some(s.phases[k].seqNo) else None, now, reason := Some(ManualStop))
            else Step(SessionEnded, None, now)])
  }

  function EndedByStop(p: Phase, now: Instant): Phase {
    BankOpenPause(p, now).(status := if p.kind.Focus? then Abandoned else Skipped, ended := Some(now))
  }

  function StopStep(p: Phase, now: Instant): Step {
    Step(if p.status.Abandoned? then PhaseAbandoned else PhaseSkipped, Some(p.seqNo), now)
  }

  predicate IsRecord(elapsed: int, prior: Option<int>) {
    elapsed >= MIN_RECORD_SECONDS && (prior.None? || elapsed < prior.value)
  }

  function Done(s: Session, now: Instant, prior: Option<int>): Option<Move> {
    var k := LiveIndex(s.phases);
    if k == |s.phases| || !s.phases[k].kind.Speedrun? then None
    else
      var elapsed := Max(0, now - OrElse(s.phases[k].started, now));
      if elapsed < 1 then None
      else
        var live := BankOpenPause(s.phases[k], now);
        if SpeedrunType(s, live).TimeBoxed? && elapsed >= live.planned then
          Some(AbandonSpeedrun(s, k, live, now, elapsed, Timeout))
        else Some(FinishRun(s, k, live, now, elapsed, prior))
  }

  function FinishedAt(live: Phase, elapsed: int, now: Instant): Phase {
    live.(status := Completed, actual := Some(elapsed), ended := Some(now))
  }

  /** The blob and the steps of a finished run. */
  function FinishOutcome(kind: RunType, planned: int, elapsed: int, prior: Option<int>): RunOutcome {
    if kind.TimeBoxed? then RunOutcome(Win, elapsed, None, Some(planned - elapsed), None)
    else RunOutcome(if IsRecord(elapsed, prior) then Record else Finished, elapsed, None, None, prior)
  }

  function FinishSteps(seqNo: nat, kind: RunType, planned: int, elapsed: int, now: Instant, prior: Option<int>)
    : seq<Step>
  {
    var record := IsRecord(elapsed, prior);
    var extra :=
      if kind.TimeBoxed? then BoxedWin(elapsed, elapsed >= MIN_RECORD_SECONDS, planned - elapsed)
      else BestRun(elapsed, record, prior);
    [Step(PhaseCompleted, Some(seqNo), now, Some(elapsed)),
     Step(SpeedrunCompleted, Some(seqNo), now, None, true, None, extra)]
    + (if kind.BeatBest? && record then [Step(RecordSet, Some(seqNo), now, None, true, None, NewRecord(prior, elapsed))]
       else [])
    + [Step(SessionEnded, None, now)]
  }

  function FinishRun(s: Session, k: nat, live: Phase, now: Instant, elapsed: int, prior: Option<int>): Move
    requires k < |s.phases|
  {
    var kind := SpeedrunType(s, live);
    Move(With(s, k, FinishedAt(live, elapsed, now)).(
           status := Ended, endedAt := Some(now),
           outcome := Some(FinishOutcome(kind, live.planned, elapsed, prior))),
         FinishSteps(live.seqNo, kind, live.planned, elapsed, now, prior))
  }
}
