/** Pauses never buy speedrun time. */
module SessionSpeedrun {
  import opened Basics
  import opened SessionTypes
  import opened SessionEngine
  import opened SessionInvariant
  import opened SessionVerbs
  import opened SessionRuns
  import opened SessionStart
  import opened SessionTheorems

  /** Reads, pauses and resumes, in any order. */
  predicate OnlyPauses(calls: seq<Call>) {
    forall i :: 0 <= i < |calls| ==>
      calls[i].request.Poll? || calls[i].request.verb.DoPause? || calls[i].request.verb.DoResume?
  }

  /** How a speedrun that has one phase of `planned` seconds stands. */
  datatype Standing = Standing(status: SessionStatus, outcome: Option<RunOutcome>)

  /** The verdict of a run started at `start` and declared done at d. Pauses are no part of it. */
  function Verdict(kind: RunType, planned: int, start: Instant, d: Instant, prior: Option<int>): Standing {
    var elapsed := d - start;
    if kind.TimeBoxed? && elapsed >= planned then
      Standing(Dead, Some(RunOutcome(Miss, planned, Some(Timeout), None, None)))
    else if elapsed < 1 then Standing(Running, None)
    else if kind.TimeBoxed? then
      Standing(Ended, Some(RunOutcome(Win, elapsed, None, Some(planned - elapsed), None)))
    else
      Standing(Ended, Some(RunOutcome(if IsRecord(elapsed, prior) then Record else Finished,
                                      elapsed, None, None, prior)))
  }

  /** A run that is alive since `start`, or was killed by a deadline that d has reached. */
  ghost predicate OnTrack(s: Session, start: Instant, d: Instant) {
    && IsSpeedrun(s)
    && (s.status.Running? ==> s.phases[0].IsLive() && s.phases[0].started == Some(start) && s.outcome.None?)
    && (!s.status.Running? ==>
        && SpeedrunType(s, s.phases[0]).TimeBoxed?
        && start + s.phases[0].planned <= d
        && s.status.Dead?
        && s.outcome == Some(RunOutcome(Miss, s.phases[0].planned, Some(Timeout), None, None)))
  }

  /** Every accepted speedrun starts out that way. */
  lemma StartOnTrack(req: StartRequest, now: Instant, d: Instant)
    requires SchemaOk(req) && req.mode.SpeedrunMode? && Plan(req).Some?
    ensures OnTrack(StartSession(req, Plan(req).value, now), now, d)
  {}

  /** One phase of the same kind and length: what a verdict depends on. */
  predicate SameRun(s: Session, s': Session) {
    && |s.phases| == |s'.phases| == 1
    && s'.phases[0].kind == s.phases[0].kind && s'.phases[0].planned == s.phases[0].planned
    && s'.runType == s.runType
  }

  /** An evaluation no later than d leaves a live run alone, or kills it at its deadline. */
  lemma EvaluateOnTrack(s: Session, start: Instant, now: Instant, d: Instant)
    requires OnTrack(s, start, d) && now <= d
    ensures OnTrack(Evaluate(s, now).session, start, d) && SameRun(s, Evaluate(s, now).session)
    ensures Evaluate(s, now).session.status.Running? ==> Evaluate(s, now) == Move(s, [])
    ensures Evaluate(s, now).session.status.Running? <==>
      s.status.Running? && !(SpeedrunType(s, s.phases[0]).TimeBoxed? && start + s.phases[0].planned <= now)
  {
    if s.status.Running? {
      assert LiveIndex(s.phases) == 0;
      LoopStops(s, 0, LastEnd(s.phases, s.startedAt), now);
    }
  }

  lemma PauseOnTrack(s: Session, start: Instant, v: Verb, now: Instant, d: Instant)
    requires OnTrack(s, start, d) && s.status.Running? && (v.DoPause? || v.DoResume?)
    ensures Apply(s, v, now).Some? ==>
      OnTrack(Apply(s, v, now).value.session, start, d) && SameRun(s, Apply(s, v, now).value.session)
  {
    assert LiveIndex(s.phases) == 0;
  }

  lemma TransactOnTrack(s: Session, start: Instant, call: Call, d: Instant)
    requires OnTrack(s, start, d) && call.now <= d && OnlyPauses([call])
    ensures OnTrack(Transact(s, call).session, start, d) && SameRun(s, Transact(s, call).session)
  {
    hide OnTrack, Evaluate, Apply;
    assert [call][0] == call;
    TrackIsRun(s, start, d);
    EvaluateOnTrack(s, start, call.now, d);
    var m := Evaluate(s, call.now);
    if call.request.Act? && m.session.status.Running? {
      PauseOnTrack(m.session, start, call.request.verb, call.now, d);
      if Apply(m.session, call.request.verb, call.now).Some? {
        EvaluateOnTrack(Apply(m.session, call.request.verb, call.now).value.session, start, call.now, d);
      }
    }
  }

  lemma TrackIsRun(s: Session, start: Instant, d: Instant)
    requires OnTrack(s, start, d)
    ensures SameRun(s, s) && IsSpeedrun(s)
  {}

  /** Any calls up to d, in any order of the clock. */
  lemma {:induction false} RunOnTrack(s: Session, start: Instant, calls: seq<Call>, d: Instant)
    requires OnTrack(s, start, d) && RunsTo(calls, d) && OnlyPauses(calls)
    ensures OnTrack(Run(s, calls).session, start, d) && SameRun(s, Run(s, calls).session)
    decreases |calls|
  {
    hide OnTrack, Transact;
    TrackIsRun(s, start, d);
    if |calls| > 0 {
      TransactOnTrack(s, start, calls[0], d);
      RunOnTrack(Transact(s, calls[0]).session, start, calls[1..], d);
    }
  }

  /** The win bonus rides the completion step. */
  ghost predicate PaysBonus(steps: seq<Step>) {
    exists i :: 0 <= i < |steps| &&
      ((steps[i].extra.BoxedWin? && steps[i].extra.winBonus) || (steps[i].extra.BestRun? && steps[i].extra.record))
  }

  /** A win under a minute pays no bonus; an open-ended run pays on a record only. */
  predicate EarnsBonus(v: Standing) {
    v.outcome.Some? && match v.outcome.value.result
      case Win => v.outcome.value.elapsed >= MIN_RECORD_SECONDS
      case Record => true
      case _ => false
  }

  lemma DoneOnTrack(s: Session, start: Instant, d: Instant, prior: Option<int>)
    requires OnTrack(s, start, d) && s.status.Running?
    requires SpeedrunType(s, s.phases[0]).TimeBoxed? ==> d < start + s.phases[0].planned
    ensures
      var verdict := Verdict(SpeedrunType(s, s.phases[0]), s.phases[0].planned, start, d, prior);
      match Done(s, d, prior)
      case None => Standing(s.status, s.outcome) == verdict
      case Some(m) =>
        && m.session.status.Ended?
        && Standing(m.session.status, m.session.outcome) == verdict
        && (PaysBonus(m.steps) <==> EarnsBonus(verdict))
  {
    assert LiveIndex(s.phases) == 0;
    var live := BankOpenPause(s.phases[0], d);
    assert SpeedrunType(s, live) == SpeedrunType(s, s.phases[0]);
    var m := Done(s, d, prior);
    if m.Some? {
      assert m.value == FinishRun(s, 0, live, d, d - start, prior);
      FinishBonus(s, live, d, d - start, prior);
    }
  }

  lemma FinishBonus(s: Session, live: Phase, d: Instant, elapsed: int, prior: Option<int>)
    requires |s.phases| == 1
    ensures
      var m := FinishRun(s, 0, live, d, elapsed, prior);
      PaysBonus(m.steps) <==>
        (if SpeedrunType(s, live).TimeBoxed? then elapsed >= MIN_RECORD_SECONDS else IsRecord(elapsed, prior))
  {
    var m := FinishRun(s, 0, live, d, elapsed, prior);
    assert m.steps[1].kind.SpeedrunCompleted?;
  }

  /** Declaring the run done at d gives the verdict of the wall clock. */
  lemma DoneVerdict(s: Session, start: Instant, d: Instant, prior: Option<int>)
    requires OnTrack(s, start, d)
    ensures
      var f := Transact(s, Call(Act(DoFinish(prior)), d));
      var verdict := Verdict(SpeedrunType(s, s.phases[0]), s.phases[0].planned, start, d, prior);
      && Standing(f.session.status, f.session.outcome) == verdict
      && (f.session.status.Ended? ==> (PaysBonus(f.steps) <==> EarnsBonus(verdict)))
  {
    hide EvaluateFrom, Done, PaysBonus, EarnsBonus;
    EvaluateOnTrack(s, start, d, d);
    if Evaluate(s, d).session.status.Running? {
      DoneOnTrack(s, start, d, prior);
      if Done(s, d, prior).Some? {
        var steps := Done(s, d, prior).value.steps;
        assert [] + ([] + steps) == steps;
      }
    }
  }

  /** Any mix of reads, pauses and resumes up to d, in any order of their clocks, before the run
      is declared done at d leads to the verdict, and the bonus, that the clock alone gives. */
  lemma PausesNeverBuyTime(s: Session, start: Instant, calls: seq<Call>, d: Instant, prior: Option<int>)
    requires OnTrack(s, start, d) && RunsTo(calls, d) && OnlyPauses(calls)
    ensures
      var f := Transact(Run(s, calls).session, Call(Act(DoFinish(prior)), d));
      var verdict := Verdict(SpeedrunType(s, s.phases[0]), s.phases[0].planned, start, d, prior);
      && Standing(f.session.status, f.session.outcome) == verdict
      && (f.session.status.Ended? ==> (PaysBonus(f.steps) <==> EarnsBonus(verdict)))
  {
    hide OnTrack, Transact, Verdict, Run, PaysBonus, EarnsBonus;
    RunOnTrack(s, start, calls, d);
    DoneVerdict(Run(s, calls).session, start, d, prior);
  }
}
