/** Values shared by the whole project. */
module Basics {
  datatype Option<+T> = None | Some(value: T)

  /** Calendar days, counted; day 0 is a Monday. */
  type Day = int

  function Max(a: int, b: int): int { if a < b then b else a }

  function Min(a: int, b: int): int { if a < b then a else b }

  /** Seconds. */
  const HOUR := 3600
  const DAY := 86400

  lemma SubsetSize(a: set<int>, b: set<int>)
    requires a <= b
    ensures |a| <= |b|
  {
    assert b == a + (b - a);
  }
}

/** Rows of the focus-session tables and the steps the session engine emits.
    Instants are whole seconds of the server clock. */
module SessionTypes {
  import opened Basics

  const GRACE_SECONDS := 300
  const MAX_MILESTONES := 100
  const MIN_RECORD_SECONDS := 60

  type Instant = int

  datatype PhaseKind = Focus | Break | Stopwatch | Speedrun
  datatype PhaseStatus = Pending | Active | Paused | Completed | Skipped | Abandoned
  datatype SessionStatus = Running | Ended | Dead
  datatype RunType = TimeBoxed | BeatBest
  datatype RunResult = Win | Miss | GivenUp | Record | Finished
  datatype Reason = AbsenceGrace | PauseOverflow | ManualStop | Timeout | RunAbandon

  datatype Phase = Phase(
    seqNo: nat,
    kind: PhaseKind,
    status: PhaseStatus,
    planned: int,
    actual: Option<int>,
    pauseCount: int,
    paused: int,
    pauseStarted: Option<Instant>,
    started: Option<Instant>,
    ended: Option<Instant>)
  {
    predicate Terminal() { status.Completed? || status.Skipped? || status.Abandoned? }

    predicate IsLive() { status.Active? || status.Paused? }
  }

  /** What a finished run leaves in the session's speedrun blob. */
  datatype RunOutcome = RunOutcome(
    result: RunResult, elapsed: int, reason: Option<Reason>, margin: Option<int>, oldRecord: Option<int>)

  datatype Session = Session(
    status: SessionStatus,
    startedAt: Instant,
    endedAt: Option<Instant>,
    autoFocus: bool,
    autoBreaks: bool,
    budgetCount: int,
    budgetSeconds: int,
    runType: Option<RunType>,
    outcome: Option<RunOutcome>,
    phases: seq<Phase>)

  datatype StepKind =
    | SessionStarted | PhaseCompleted | PhaseStarted | PhasePaused | PhaseResumed | PhaseSkipped
    | PhaseAbandoned | SessionEnded | SessionAbandoned | SpeedrunCompleted | SpeedrunFailed | RecordSet

  datatype Extra =
    | NoExtra
    | PauseNumber(n: int)
    | Milestone(index: int)
    | FailedRun(runType: RunType, elapsed: int)
    | BoxedWin(elapsed: int, winBonus: bool, margin: int)
    | BestRun(elapsed: int, record: bool, prior: Option<int>)
    | NewRecord(prior: Option<int>, seconds: int)

  datatype Step = Step(
    kind: StepKind,
    phaseSeq: Option<nat>,
    at: Instant,
    actual: Option<int> := None,
    scored: bool := false,
    reason: Option<Reason> := None,
    extra: Extra := NoExtra)

  /** One transition: the session it leaves and the steps it emits. */
  datatype Move = Move(session: Session, steps: seq<Step>)
}
