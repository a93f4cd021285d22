/** Opening a session: the plan a start request is turned into. */
module SessionStart {
  import opened Basics
  import opened SessionTypes
  import opened SessionEngine
  import opened SessionInvariant
  import opened SessionVerbs
  import opened SessionRuns

  datatype Mode = TimerMode | StopwatchMode | SpeedrunMode

  /** A request gives lengths in minutes, a plan in seconds. */
  datatype Leg = Leg(kind: PhaseKind, length: int)

  datatype RunConfig = RunConfig(kind: RunType, budgetMinutes: Option<int>)

  /** A missing list of legs is the empty one. */
  datatype StartRequest = StartRequest(
    mode: Mode, legs: seq<Leg>, run: Option<RunConfig>, hasLabel: bool,
    autoFocus: bool, autoBreaks: bool, budgetCount: int, budgetSeconds: int)

  /** What the request schema has already checked. */
  predicate SchemaOk(req: StartRequest) {
    && (forall i :: 0 <= i < |req.legs| ==>
          0 < req.legs[i].length <= 600 && (req.legs[i].kind.Focus? || req.legs[i].kind.Break?))
    && (req.run.Some? && req.run.value.budgetMinutes.Some? ==> 0 < req.run.value.budgetMinutes.value <= 600)
    && 0 <= req.budgetCount <= 20 && 0 < req.budgetSeconds <= 3600
  }

  function SpeedrunPlan(req: StartRequest): Option<seq<Leg>> {
    if req.run.None? then None
    else if req.run.value.kind.TimeBoxed? then
      if req.run.value.budgetMinutes.None? then None
      else Some([Leg(Speedrun, req.run.value.budgetMinutes.value * 60)])
    else if req.run.value.budgetMinutes.Some? || !req.hasLabel then None
    else Some([Leg(Speedrun, 0)])
  }

  /** None is the ValueError of an unusable combination. */
  function Plan(req: StartRequest): Option<seq<Leg>> {
    if req.mode.SpeedrunMode? then SpeedrunPlan(req)
    else if req.run.Some? then None
    else if req.mode.StopwatchMode? then Some([Leg(Stopwatch, 0)])
    else if |req.legs| == 0 then None
    else if forall i :: 0 <= i < |req.legs| ==> !req.legs[i].kind.Focus? then None
    else Some(seq(|req.legs|, i requires 0 <= i < |req.legs| => Leg(req.legs[i].kind, req.legs[i].length * 60)))
  }

  function FirstRow(i: nat, leg: Leg, now: Instant): Phase {
    Phase(i, leg.kind, if i == 0 then Active else Pending, leg.length, None, 0, 0, None,
          if i == 0 then Some(now) else None, None)
  }

  function StartSession(req: StartRequest, plan: seq<Leg>, now: Instant): Session {
    Session(Running, now, None, req.autoFocus, req.autoBreaks, req.budgetCount, req.budgetSeconds,
            if req.run.Some? then Some(req.run.value.kind) else None, None,
            seq(|plan|, i requires 0 <= i < |plan| => FirstRow(i, plan[i], now)))
  }

  /** Every accepted start request opens a session that satisfies the invariant, with its
      first phase running and nothing due. */
  lemma StartRests(req: StartRequest, now: Instant)
    requires SchemaOk(req) && Plan(req).Some?
    ensures Resting(StartSession(req, Plan(req).value, now), now)
    ensures StartSession(req, Plan(req).value, now).phases[0].status.Active?
  {
    hide Plan, Evaluate, RowsOk, StatusOk, StartSession;
    var s := StartSession(req, Plan(req).value, now);
    StartPlanOk(req, s, now);
    StartRowsOk(req, s, now);
    StartStatusOk(req, s, now);
    QuietIff(s, 0, now);
  }

  lemma StartRowsOk(req: StartRequest, s: Session, now: Instant)
    requires SchemaOk(req) && Plan(req).Some? && s == StartSession(req, Plan(req).value, now) && PlanOk(s)
    ensures RowsOk(s, now)
  {
    hide Plan, PlanOk;
    var plan := Plan(req).value;
    forall i | 0 <= i < |s.phases| ensures PhaseOk(s, s.phases[i], now) {
      assert s.phases[i] == FirstRow(i, plan[i], now);
    }
  }

  lemma StartStatusOk(req: StartRequest, s: Session, now: Instant)
    requires SchemaOk(req) && Plan(req).Some? && s == StartSession(req, Plan(req).value, now) && |s.phases| > 0
    ensures StatusOk(s) && s.status.Running? && LiveIndex(s.phases) == 0
    ensures s.phases[0].status.Active? && !Due(s, 0, now)
  {
    hide PlanOk;
    var plan := Plan(req).value;
    assert forall i :: 0 <= i < |s.phases| ==> s.phases[i] == FirstRow(i, plan[i], now);
  }

  lemma StartPlanOk(req: StartRequest, s: Session, now: Instant)
    requires SchemaOk(req) && Plan(req).Some? && s == StartSession(req, Plan(req).value, now)
    ensures PlanOk(s) && |s.phases| > 0
  {
    var plan := Plan(req).value;
    assert forall i :: 0 <= i < |plan| ==> s.phases[i] == FirstRow(i, plan[i], now);
    if req.mode.TimerMode? {
      var i :| 0 <= i < |req.legs| && req.legs[i].kind.Focus?;
      assert s.phases[i].kind.Focus?;
    } else {
      assert s.phases[0].kind == plan[0].kind;
    }
  }

  /** Which requests get a plan: a box needs its minutes, an open run a label and no minutes, other
      modes no run at all, and a timer at least one focus leg. */
  lemma PlanLaw(req: StartRequest)
    ensures Plan(req).Some? <==>
      match req.mode
      case SpeedrunMode =>
        req.run.Some? &&
        (if req.run.value.kind.TimeBoxed? then req.run.value.budgetMinutes.Some?
         else req.run.value.budgetMinutes.None? && req.hasLabel)
      case StopwatchMode => req.run.None?
      case TimerMode => req.run.None? && exists i :: 0 <= i < |req.legs| && req.legs[i].kind.Focus?
  {}

  /** What an accepted request opens: the legs it asked for, in seconds and in order, the first one
      running and the others pending. */
  lemma StartLaw(req: StartRequest, now: Instant)
    requires Plan(req).Some?
    ensures
      var s := StartSession(req, Plan(req).value, now);
      && s == Session(Running, now, None, req.autoFocus, req.autoBreaks, req.budgetCount, req.budgetSeconds,
                      if req.run.Some? then Some(req.run.value.kind) else None, None, s.phases)
      && |s.phases| == (if req.mode.TimerMode? then |req.legs| else 1)
      && forall i :: 0 <= i < |s.phases| ==>
           && s.phases[i] == Phase(i, s.phases[i].kind, if i == 0 then Active else Pending, s.phases[i].planned, None, 0, 0,
                                   None, if i == 0 then Some(now) else None, None)
           && match req.mode
              case TimerMode =>
                s.phases[i].kind == req.legs[i].kind && s.phases[i].planned == 60 * req.legs[i].length
              case StopwatchMode => s.phases[i].kind.Stopwatch? && s.phases[i].planned == 0
              case SpeedrunMode =>
                s.phases[i].kind.Speedrun?
                && s.phases[i].planned ==
                   if req.run.value.budgetMinutes.Some? then 60 * req.run.value.budgetMinutes.value else 0
  {
    PlanLaw(req);
  }
}
