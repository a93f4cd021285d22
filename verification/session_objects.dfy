/** The engine as it runs: session and phase objects updated in place. Every method is
    tied to the function of the same name in SessionEngine. */
module SessionObjects {
  import opened Basics
  import opened SessionTypes
  import Engine = SessionEngine

  class FocusPhase {
    const seqNo: nat
    const kind: PhaseKind
    const planned: int
    var status: PhaseStatus
    var actual: Option<int>
    var pauseCount: int
    var paused: int
    var pauseStarted: Option<Instant>
    var started: Option<Instant>
    var ended: Option<Instant>

    constructor (seqNo: nat, kind: PhaseKind, planned: int, status: PhaseStatus, started: Option<Instant>)
      ensures Row() == Phase(seqNo, kind, status, planned, None, 0, 0, None, started, None)
    {
      this.seqNo, this.kind, this.planned := seqNo, kind, planned;
      this.status, this.started := status, started;
      actual, pauseStarted, ended := None, None, None;
      pauseCount, paused := 0, 0;
    }

    function Row(): Phase
      reads this
    {
      Phase(seqNo, kind, status, planned, actual, pauseCount, paused, pauseStarted, started, ended)
    }

    /** A pause still running is counted up to now. */
    method BankOpenPause(now: Instant)
      modifies this`paused, this`pauseStarted
      ensures Row() == Engine.BankOpenPause(old(Row()), now)
    {
      if status.Paused? && pauseStarted.Some? {
        paused := paused + (now - pauseStarted.value);
        pauseStarted := None;
      }
    }
  }

  class FocusSession {
    const phases: seq<FocusPhase>
    const startedAt: Instant
    const autoFocus: bool
    const autoBreaks: bool
    const budgetCount: int
    const budgetSeconds: int
    const runType: Option<RunType>
    var status: SessionStatus
    var endedAt: Option<Instant>
    var outcome: Option<RunOutcome>

    constructor (phases: seq<FocusPhase>, startedAt: Instant, autoFocus: bool, autoBreaks: bool,
                 budgetCount: int, budgetSeconds: int, runType: Option<RunType>)
      requires forall i, j :: 0 <= i < j < |phases| ==> phases[i] != phases[j]
      ensures Valid() && this.phases == phases
      ensures View() == Session(Running, startedAt, None, autoFocus, autoBreaks, budgetCount, budgetSeconds,
                                runType, None, Rows())
    {
      this.phases, this.startedAt := phases, startedAt;
      this.autoFocus, this.autoBreaks := autoFocus, autoBreaks;
      this.budgetCount, this.budgetSeconds, this.runType := budgetCount, budgetSeconds, runType;
      status, endedAt, outcome := Running, None, None;
    }

    /** No two entries of the phase list are the same row. */
    ghost predicate Valid() { forall i, j :: 0 <= i < j < |phases| ==> phases[i] != phases[j] }

    ghost function Rows(): (rows: seq<Phase>)
      reads phases
      ensures |rows| == |phases| && forall i :: 0 <= i < |phases| ==> rows[i] == phases[i].Row()
    {
      seq(|phases|, i requires 0 <= i < |phases| reads phases => phases[i].Row())
    }

    ghost function View(): Session
      reads this, phases
    {
      Session(status, startedAt, endedAt, autoFocus, autoBreaks, budgetCount, budgetSeconds, runType, outcome, Rows())
    }

    /** Only row k differs from what the rows were. */
    lemma Replaced(rows: seq<Phase>, k: nat)
      requires k < |phases| && |rows| == |phases|
      requires forall i :: 0 <= i < |phases| && i != k ==> phases[i].Row() == rows[i]
      ensures Rows() == rows[k := phases[k].Row()]
      ensures View() == Engine.With(View().(phases := rows), k, phases[k].Row())
    {}

    /** The pause ran over: the phase dies where its budget was spent, the whole pause banked. */
    method OverflowRow(k: nat, at: Instant, total: int)
      requires Valid() && k < |phases|
      modifies phases
      ensures View() == Engine.With(old(View()), k, old(phases[k].Row()).(
                          status := Abandoned, ended := Some(at), paused := total, pauseStarted := None))
    {
      var cur := phases[k];
      cur.status := Abandoned;
      cur.ended := Some(at);
      cur.paused := total;
      cur.pauseStarted := None;
      Replaced(old(Rows()), k);
    }

    method AbandonRow(k: nat, at: Instant)
      requires Valid() && k < |phases|
      modifies phases
      ensures View() == Engine.With(old(View()), k, Engine.BankOpenPause(old(phases[k].Row()), at).(
                          status := Abandoned, ended := Some(at)))
    {
      var cur := phases[k];
      cur.BankOpenPause(at);
      cur.status := Abandoned;
      cur.ended := Some(at);
      Replaced(old(Rows()), k);
    }

    method CompleteRow(k: nat, elapsed: int, at: Instant)
      requires Valid() && k < |phases|
      modifies phases
      ensures View() == Engine.With(old(View()), k, Engine.FinishedAt(
                          Engine.BankOpenPause(old(phases[k].Row()), at), elapsed, at))
    {
      var live := phases[k];
      live.BankOpenPause(at);
      live.status := Completed;
      live.actual := Some(elapsed);
      live.ended := Some(at);
      Replaced(old(Rows()), k);
    }

    method PauseRow(k: nat, now: Instant) returns (number: int)
      requires Valid() && k < |phases|
      modifies phases
      ensures View() == Engine.With(old(View()), k, Engine.PausedAt(old(phases[k].Row()), now))
      ensures number == old(phases[k].pauseCount) + 1
    {
      var cur := phases[k];
      number := cur.pauseCount + 1;
      cur.pauseCount := number;
      cur.pauseStarted := Some(now);
      cur.status := Paused;
      Replaced(old(Rows()), k);
    }

    method SkipRow(k: nat, at: Instant)
      requires Valid() && k < |phases|
      modifies phases
      ensures View() == Engine.With(old(View()), k, Engine.SkippedAt(old(phases[k].Row()), at))
    {
      var live := phases[k];
      live.status := Skipped;
      live.ended := Some(at);
      Replaced(old(Rows()), k);
    }

    method ResumeRow(k: nat, extra: int)
      requires Valid() && k < |phases|
      modifies phases
      ensures View() == Engine.With(old(View()), k, old(phases[k].Row()).(
                          paused := old(phases[k].paused) + extra, pauseStarted := None, status := Active))
    {
      var cur := phases[k];
      cur.paused := cur.paused + extra;
      cur.pauseStarted := None;
      cur.status := Active;
      Replaced(old(Rows()), k);
    }

    method StopRow(k: nat, focused: int, paused: int, at: Instant)
      requires Valid() && k < |phases|
      modifies phases
      ensures View() == Engine.With(old(View()), k, old(phases[k].Row()).(
                          actual := Some(focused), paused := paused, pauseStarted := None, status := Completed,
                          ended := Some(at)))
    {
      var live := phases[k];
      live.actual := Some(focused);
      live.paused := paused;
      live.pauseStarted := None;
      live.status := Completed;
      live.ended := Some(at);
      Replaced(old(Rows()), k);
    }

    method LivePhase() returns (k: nat)
      ensures k == Engine.LiveIndex(Rows())
    {
      k := 0;
      while k < |phases| && !phases[k].status.Active? && !phases[k].status.Paused?
        invariant k <= |phases|
        invariant forall i :: 0 <= i < k ==> !Rows()[i].IsLive()
      {
        k := k + 1;
      }
    }

    method NextPending() returns (k: nat)
      ensures k == Engine.NextPending(Rows())
    {
      k := 0;
      while k < |phases| && !phases[k].status.Pending?
        invariant k <= |phases|
        invariant forall i :: 0 <= i < k ==> !Rows()[i].status.Pending?
      {
        k := k + 1;
      }
    }

    method CompletedFocusCount() returns (n: nat)
      ensures n == Engine.CompletedFocusCount(Rows())
    {
      n := 0;
      for i := 0 to |phases|
        invariant n == Engine.CompletedFocusCount(Rows()[..i])
      {
        assert Rows()[..i + 1][..i] == Rows()[..i];
        if phases[i].kind.Focus? && phases[i].status.Completed? {
          n := n + 1;
        }
      }
      assert Rows()[..|phases|] == Rows();
    }

    /** The anchor of the absence watch. */
    method LastEnd() returns (e: Instant)
      ensures e == Engine.LastEnd(Rows(), startedAt)
    {
      e := startedAt;
      var none := true;
      for i := 0 to |phases|
        invariant e == Engine.LastEnd(Rows()[..i], startedAt)
        invariant none <==> Engine.NoneEnded(Rows()[..i])
      {
        assert Rows()[..i + 1][..i] == Rows()[..i];
        if phases[i].ended.Some? {
          e := if none || e < phases[i].ended.value then phases[i].ended.value else e;
          none := false;
          assert Rows()[..i + 1][i].ended.Some?;
        }
      }
      assert Rows()[..|phases|] == Rows();
    }

    /** Turns every pending row into a skipped one. */
    method SkipPending(at: Instant) returns (steps: seq<Step>)
      requires Valid()
      modifies phases
      ensures Rows() == Engine.SkipPending(old(Rows()), at)
      ensures steps == Engine.SkipSteps(old(Rows()), at)
    {
      ghost var rows := Rows();
      steps := [];
      for i := 0 to |phases|
        invariant steps == Engine.SkipSteps(rows[..i], at)
        invariant forall j :: 0 <= j < i ==> phases[j].Row() == Engine.SkipOne(rows[j], at)
        invariant forall j :: i <= j < |phases| ==> phases[j].Row() == rows[j]
      {
        assert rows[..i + 1][..i] == rows[..i];
        var phase := phases[i];
        if phase.status.Pending? {
          phase.status := Skipped;
          phase.ended := Some(at);
          steps := steps + [Step(PhaseSkipped, Some(phase.seqNo), at)];
        }
      }
      assert rows[..|phases|] == rows;
    }

    /** Set the session's own columns and skip what never started. */
    method Close(final: SessionStatus, at: Instant) returns (skips: seq<Step>)
      requires Valid()
      modifies this`status, this`endedAt, phases
      ensures View() == Engine.Close(old(View()), final, at)
      ensures skips == Engine.SkipSteps(old(Rows()), at)
    {
      status := final;
      endedAt := Some(at);
      skips := SkipPending(at);
    }

    method ResolveNoLive(lastEnd: Instant, now: Instant) returns (steps: seq<Step>)
      requires Valid()
      modifies this`status, this`endedAt, phases
      ensures Move(View(), steps) == Engine.ResolveNoLive(old(View()), lastEnd, now)
    {
      var k := NextPending();
      if k == |phases| {
        status := Ended;
        endedAt := Some(lastEnd);
        return [Step(SessionEnded, None, lastEnd)];
      }
      if now < lastEnd + GRACE_SECONDS {
        return [];
      }
      var at := lastEnd + GRACE_SECONDS;
      var completed := CompletedFocusCount();
      if completed == 0 {
        var skips := Close(Dead, at);
        return skips + [Step(SessionAbandoned, None, at, reason := Some(AbsenceGrace))];
      }
      var skips := Close(Ended, at);
      return skips + [Step(SessionEnded, None, at)];
    }

    /** Phase k dies of its pause, and the session with it. */
    method Overflow(k: nat, at: Instant, total: int) returns (steps: seq<Step>)
      requires Valid() && k < |phases|
      modifies this`status, this`endedAt, phases
      ensures
        var dead := old(phases[k].Row()).(status := Abandoned, ended := Some(at), paused := total, pauseStarted := None);
        Move(View(), steps) == Engine.Overflow(old(View()), k, dead, at)
    {
      hide Rows, Engine.Close, Engine.SkipSteps;
      OverflowRow(k, at, total);
      var skips := Close(Dead, at);
      steps := skips + [Step(SessionAbandoned, Some(phases[k].seqNo), at, reason := Some(PauseOverflow))];
    }

    method CheckPauseOverflow(k: nat, now: Instant) returns (steps: seq<Step>)
      requires Valid() && k < |phases|
      modifies this`status, this`endedAt, phases
      ensures Move(View(), steps) == Engine.CheckPauseOverflow(old(View()), k, now)
    {
      hide Rows, Engine.Overflow;
      steps := [];
      var cur := phases[k];
      var banked := cur.paused;
      var pauseStart := if cur.pauseStarted.Some? then cur.pauseStarted.value else now;
      var extra := now - pauseStart;
      if banked + extra <= budgetSeconds {
        return;
      }
      var crossedAt := pauseStart + (budgetSeconds - banked);
      steps := Overflow(k, crossedAt, banked + extra);
    }

    /** Phase k has run its time: it is completed, and the next pending phase starts if its
        kind is set to start by itself. */
    method CompletePhase(k: nat, end: Instant) returns (steps: seq<Step>)
      requires Valid() && k < |phases|
      modifies phases
      ensures Move(View(), steps) == Engine.CompletePhase(old(View()), k, end)
    {
      var cur := phases[k];
      steps := [Step(PhaseCompleted, Some(cur.seqNo), end, Some(cur.planned), cur.kind.Focus?)];
      cur.status := Completed;
      cur.actual := Some(cur.planned);
      cur.ended := Some(end);
      Replaced(old(Rows()), k);
      label Done:
      var n := NextPending();
      if n < |phases| && (if phases[n].kind.Break? then autoBreaks else autoFocus) {
        var started := StartPhase(n, end);
        steps := steps + started;
      }
    }

    method StartPhase(n: nat, at: Instant) returns (steps: seq<Step>)
      requires Valid() && n < |phases|
      modifies phases
      ensures Move(View(), steps) == Engine.StartPhase(old(View()), n, at)
    {
      var next := phases[n];
      next.status := Active;
      next.started := Some(at);
      Replaced(old(Rows()), n);
      steps := [Step(PhaseStarted, Some(next.seqNo), at)];
    }

    method SpeedrunType(phase: FocusPhase) returns (kind: RunType)
      ensures kind == Engine.SpeedrunType(View(), phase.Row())
    {
      if runType.Some? {
        return runType.value;
      }
      kind := if phase.planned > 0 then TimeBoxed else BeatBest;
    }

    /** The run is lost at `at`: the row, the outcome and the session close together. */
    method LoseRun(k: nat, at: Instant, result: RunOutcome) returns (skips: seq<Step>)
      requires Valid() && k < |phases|
      modifies this, phases
      ensures
        var dead := Engine.BankOpenPause(old(phases[k].Row()), at).(status := Abandoned, ended := Some(at));
        && View() == Engine.Die(old(View()), k, dead, Some(result), at)
        && skips == Engine.SkipSteps(old(Rows())[k := dead], at)
    {
      hide Rows, Engine.Close, Engine.SkipSteps, Engine.BankOpenPause;
      AbandonRow(k, at);
      outcome := Some(result);
      skips := Close(Dead, at);
    }

    /** None when there is no deadline or it has not passed. */
    method CheckSpeedrunDeadline(k: nat, now: Instant) returns (failed: Option<seq<Step>>)
      requires Valid() && k < |phases|
      modifies this, phases
      ensures
        match Engine.CheckSpeedrunDeadline(old(View()), k, now)
        case None => failed == None && View() == old(View())
        case Some(m) => failed == Some(m.steps) && View() == m.session
    {
      hide Rows, Engine.Die, Engine.SkipSteps, Engine.BankOpenPause, Engine.SpeedrunType;
      var cur := phases[k];
      var kind := SpeedrunType(cur);
      if !kind.TimeBoxed? {
        return None;
      }
      var started := if cur.started.Some? then cur.started.value else now;
      var deadline := started + cur.planned;
      if now < deadline {
        return None;
      }
      var skips := LoseRun(k, deadline, RunOutcome(Miss, cur.planned, Some(Timeout), None, None));
      return Some(skips + [Step(PhaseAbandoned, Some(cur.seqNo), deadline),
                           Step(SpeedrunFailed, Some(cur.seqNo), deadline, None, true, Some(Timeout),
                                FailedRun(TimeBoxed, cur.planned))]);
    }

    /** The replay loop. */
    method Evaluate(now: Instant) returns (steps: seq<Step>)
      requires Valid()
      modifies this, phases
      ensures Move(View(), steps) == Engine.Evaluate(old(View()), now)
    {
      hide Rows, Engine.EvaluateFrom, Engine.CompletePhase, Engine.ResolveNoLive, Engine.CheckSpeedrunDeadline;
      hide Rows, Engine.CheckPauseOverflow, Engine.LiveIndex, Engine.LastEnd, Engine.Elapsed, Engine.OpenSet;
      steps := [];
      if !status.Running? {
        return;
      }
      var lastEnd := LastEnd();
      ghost var whole := Engine.EvaluateFrom(View(), lastEnd, now);
      while true
        invariant Valid()
        invariant Continued(whole, steps, Engine.EvaluateFrom(View(), lastEnd, now))
        decreases Engine.OpenSet(Rows())
      {
        ghost var before := Engine.EvaluateFrom(View(), lastEnd, now);
        var k := LivePhase();
        if k == |phases| {
          Engine.LoopEnds(View(), lastEnd, now);
          var rest := ResolveNoLive(lastEnd, now);
          return steps + rest;
        }
        var end := ElapsedAt(k, now);
        if end.None? {
          var rest := LiveTurn(k, lastEnd, now);
          return steps + rest;
        }
        Engine.CompletionCloses(View(), k, end.value);
        Engine.LoopTurn(View(), k, lastEnd, now);
        var turn := CompletePhase(k, end.value);
        lastEnd := end.value;
        ContinuedTurn(whole, steps, before, turn, Engine.EvaluateFrom(View(), lastEnd, now));
        steps := steps + turn;
      }
    }

    static lemma ContinuedTurn(whole: Move, steps: seq<Step>, before: Move, turn: seq<Step>, rest: Move)
      requires Continued(whole, steps, before) && before == Move(rest.session, turn + rest.steps)
      ensures Continued(whole, steps + turn, rest)
    {
      assert (steps + turn) + rest.steps == steps + (turn + rest.steps);
    }

    /** The end of the live phase when it is running and its planned window has elapsed. */
    method ElapsedAt(k: nat, now: Instant) returns (end: Option<Instant>)
      requires k == Engine.LiveIndex(Rows()) < |phases|
      ensures end == if Engine.Elapsed(View(), k, now) then Some(Engine.PhaseEnd(Rows()[k], now)) else None
    {
      var cur := phases[k];
      if cur.kind.Stopwatch? || cur.kind.Speedrun? || cur.status.Paused? {
        return None;
      }
      var e := (if cur.started.Some? then cur.started.value else now) + cur.planned + cur.paused;
      end := if now < e then None else Some(e);
    }

    /** `rest` is what remains of `whole` after `steps`. */
    static ghost predicate Continued(whole: Move, steps: seq<Step>, rest: Move) {
      whole == Move(rest.session, steps + rest.steps)
    }

    /** The last turn of the loop, on a live phase that is not to be completed. */
    method LiveTurn(k: nat, ghost lastEnd: Instant, now: Instant) returns (steps: seq<Step>)
      requires Valid() && k == Engine.LiveIndex(Rows()) < |phases| && !Engine.Elapsed(View(), k, now)
      modifies this, phases
      ensures Move(View(), steps) == Engine.EvaluateFrom(old(View()), lastEnd, now)
    {
      hide Rows, Engine.EvaluateFrom, Engine.CheckSpeedrunDeadline, Engine.CheckPauseOverflow;
      Engine.LoopStops(View(), k, lastEnd, now);
      steps := [];
      var cur := phases[k];
      if cur.kind.Stopwatch? {
        // No clock ends a stopwatch.
      } else if cur.kind.Speedrun? {
        var failed := CheckSpeedrunDeadline(k, now);
        if failed.Some? {
          steps := failed.value;
        }
      } else if cur.status.Paused? {
        steps := CheckPauseOverflow(k, now);
      }
    }

    // --- Verbs: None is the ValueError, raised before anything is changed ------------

    method Pause(now: Instant) returns (steps: Option<seq<Step>>)
      requires Valid()
      modifies this, phases
      ensures
        match Engine.Pause(old(View()), now)
        case None => steps == None && View() == old(View())
        case Some(m) => steps == Some(m.steps) && View() == m.session
    {
      hide Rows, Engine.Overflow, Engine.With, Engine.LiveIndex, Engine.PausedAt;
      var k := LivePhase();
      if k == |phases| || !phases[k].status.Active? || phases[k].kind.Break? {
        return None;
      }
      var cur := phases[k];
      if cur.kind.Stopwatch? || cur.kind.Speedrun? || cur.pauseCount + 1 <= budgetCount {
        var number := PauseRow(k, now);
        return Some([Step(PhasePaused, Some(cur.seqNo), now, extra := PauseNumber(number))]);
      }
      var died := Overflow(k, now, cur.paused);
      return Some(died);
    }

    method Resume(now: Instant) returns (steps: Option<seq<Step>>)
      requires Valid()
      modifies this, phases
      ensures
        match Engine.Resume(old(View()), now)
        case None => steps == None && View() == old(View())
        case Some(m) => steps == Some(m.steps) && View() == m.session
    {
      hide Rows, Engine.Overflow, Engine.With, Engine.LiveIndex;
      var k := LivePhase();
      if k == |phases| || !phases[k].status.Paused? {
        return None;
      }
      var cur := phases[k];
      var extra := now - (if cur.pauseStarted.Some? then cur.pauseStarted.value else now);
      var overflow := cur.kind.Focus? && cur.paused + extra > budgetSeconds;
      if overflow {
        var died := Overflow(k, now, cur.paused + extra);
        return Some(died);
      }
      var pauses := cur.pauseCount;
      ResumeRow(k, extra);
      return Some([Step(PhaseResumed, Some(cur.seqNo), now, extra := PauseNumber(pauses))]);
    }

    method SkipBreak(k: nat, now: Instant) returns (steps: seq<Step>)
      requires Valid() && k < |phases|
      modifies this, phases
      ensures Move(View(), steps) == Engine.SkipBreak(old(View()), k, now)
    {
      hide Rows, Engine.StartPhase, Engine.With, Engine.SkippedAt;
      var live := phases[k];
      SkipRow(k, now);
      steps := [Step(PhaseSkipped, Some(live.seqNo), now)];
      var n := NextPending();
      if n < |phases| {
        var started := StartPhase(n, now);
        steps := steps + started;
      } else {
        status := Ended;
        endedAt := Some(now);
        steps := steps + [Step(SessionEnded, None, now)];
      }
    }

    /** On to the next phase: from a gap, or out of a break. */
    method Advance(now: Instant) returns (steps: Option<seq<Step>>)
      requires Valid()
      modifies this, phases
      ensures
        match Engine.Advance(old(View()), now)
        case None => steps == None && View() == old(View())
        case Some(m) => steps == Some(m.steps) && View() == m.session
    {
      var k := LivePhase();
      if k < |phases| {
        var live := phases[k];
        if !live.kind.Break? || !live.status.Active? {
          return None;
        }
        var skipped := SkipBreak(k, now);
        return Some(skipped);
      }
      var n := NextPending();
      if n == |phases| {
        return None;
      }
      var started := StartPhase(n, now);
      return Some(started);
    }

    /** Losing a speedrun is reported as a failed run and nothing else. */
    method AbandonSpeedrun(k: nat, now: Instant, elapsed: int, reason: Reason) returns (steps: seq<Step>)
      requires Valid() && k < |phases|
      modifies this, phases
      ensures Move(View(), steps) ==
        Engine.AbandonSpeedrun(old(View()), k, Engine.BankOpenPause(old(phases[k].Row()), now), now, elapsed, reason)
    {
      hide Rows, Engine.Die, Engine.SkipSteps;
      var live := phases[k];
      var kind := SpeedrunType(live);
      var result := if kind.TimeBoxed? then Miss else GivenUp;
      var skips := LoseRun(k, now, RunOutcome(result, elapsed, Some(reason), None, None));
      return [Step(PhaseAbandoned, Some(live.seqNo), now)] + skips
        + [Step(SpeedrunFailed, Some(live.seqNo), now, None, true, Some(reason), FailedRun(kind, elapsed))];
    }

    method StopStopwatch(k: nat, now: Instant) returns (steps: seq<Step>)
      requires Valid() && k < |phases|
      modifies this, phases
      ensures View() == Engine.Close(
                          Engine.With(old(View()), k, Engine.StoppedStopwatch(old(phases[k].Row()), now)), Ended, now)
      ensures
        var p := Engine.StoppedStopwatch(old(phases[k].Row()), now);
        steps == Engine.Milestones(p.seqNo, Engine.OrElse(p.started, now), p.paused, Engine.MilestoneCount(p.actual.value))
          + Engine.SkipSteps(Engine.With(old(View()), k, p).phases, now) + [Step(SessionEnded, None, now)]
    {
      hide Rows, Engine.Close, Engine.SkipSteps, Engine.Milestones, Engine.MilestoneCount, Engine.BankOpenPause,
        Engine.With;
      var live := phases[k];
      var started := if live.started.Some? then live.started.value else now;
      var elapsed := now - started;
      var paused := live.paused;
      if live.status.Paused? {
        paused := paused + (now - (if live.pauseStarted.Some? then live.pauseStarted.value else now));
      }
      var focused := Max(0, elapsed - paused);
      StopRow(k, focused, paused, now);
      var marks := MilestoneSteps(live.seqNo, started, paused, focused);
      var skips := Close(Ended, now);
      steps := marks + skips + [Step(SessionEnded, None, now)];
    }

    /** One step for each 25 focused minutes, MAX_MILESTONES at most. */
    method MilestoneSteps(seqNo: nat, started: Instant, paused: int, actual: nat) returns (marks: seq<Step>)
      ensures marks == Engine.Milestones(seqNo, started, paused, Engine.MilestoneCount(actual))
    {
      var bound := Min(actual / 60, MAX_MILESTONES * 25);
      marks := [];
      var minutes := 25;
      ghost var all := Engine.Milestones(seqNo, started, paused, Engine.MilestoneCount(actual));
      while minutes < bound + 1
        invariant minutes == (|marks| + 1) * 25
        invariant |marks| <= bound / 25
        invariant marks == all[..|marks|]
      {
        var crossed := started + minutes * 60 + paused;
        marks := marks + [Step(PhaseCompleted, Some(seqNo), crossed, Some(minutes * 60), true, None,
                               Milestone(|marks| + 1))];
        minutes := minutes + 25;
      }
    }

    method StopTimer(k: nat, now: Instant) returns (steps: seq<Step>)
      requires Valid() && k <= |phases|
      modifies this, phases
      ensures Move(View(), steps) == Engine.StopTimer(old(View()), k, now)
    {
      hide Rows, Engine.Close, Engine.SkipSteps, Engine.CompletedFocusCount;
      var first := [];
      if k < |phases| {
        var live := phases[k];
        live.BankOpenPause(now);
        live.status := if live.kind.Focus? then Abandoned else Skipped;
        live.ended := Some(now);
        Replaced(old(Rows()), k);
        first := [Step(if live.status.Abandoned? then PhaseAbandoned else PhaseSkipped, Some(live.seqNo), now)];
      }
      var completed := CompletedFocusCount();
      if completed == 0 {
        var skips := Close(Dead, now);
        return first + skips
          + [Step(SessionAbandoned, if k < |phases| then Some(phases[k].seqNo) else None, now, reason := Some(ManualStop))];
      }
      var skips := Close(Ended, now);
      return first + skips + [Step(SessionEnded, None, now)];
    }

    /** The user stops: each mode has its own way out. */
    method Stop(now: Instant) returns (steps: seq<Step>)
      requires Valid()
      modifies this, phases
      ensures Move(View(), steps) == Engine.Stop(old(View()), now)
    {
      hide Rows, Engine.Close, Engine.SkipSteps, Engine.StopTimer, Engine.AbandonSpeedrun, Engine.Milestones;
      var k := LivePhase();
      if k < |phases| && phases[k].kind.Speedrun? {
        var started := if phases[k].started.Some? then phases[k].started.value else now;
        steps := AbandonSpeedrun(k, now, Max(0, now - started), RunAbandon);
      } else if k < |phases| && phases[k].kind.Stopwatch? {
        steps := StopStopwatch(k, now);
      } else {
        steps := StopTimer(k, now);
      }
    }

    /** Declares the run finished; `prior` is the record to beat. */
    method Done(now: Instant, prior: Option<int>) returns (steps: Option<seq<Step>>)
      requires Valid()
      modifies this, phases
      ensures
        match Engine.Done(old(View()), now, prior)
        case None => steps == None && View() == old(View())
        case Some(m) => steps == Some(m.steps) && View() == m.session
    {
      hide Rows, Engine.AbandonSpeedrun, Engine.FinishRun;
      var k := LivePhase();
      if k == |phases| || !phases[k].kind.Speedrun? {
        return None;
      }
      var live := phases[k];
      var elapsed := Max(0, now - (if live.started.Some? then live.started.value else now));
      if elapsed < 1 {
        return None;
      }
      var kind := SpeedrunType(live);
      if kind.TimeBoxed? && elapsed >= live.planned {
        var failed := AbandonSpeedrun(k, now, elapsed, Timeout);
        return Some(failed);
      }
      var finished := FinishRun(k, now, elapsed, prior);
      return Some(finished);
    }

    method WinRun(k: nat, elapsed: int, at: Instant, result: RunOutcome)
      requires Valid() && k < |phases|
      modifies this, phases
      ensures View() == Engine.With(old(View()), k, Engine.FinishedAt(
                          Engine.BankOpenPause(old(phases[k].Row()), at), elapsed, at)).(
                          status := Ended, endedAt := Some(at), outcome := Some(result))
    {
      hide Rows, Engine.FinishedAt, Engine.BankOpenPause;
      CompleteRow(k, elapsed, at);
      status := Ended;
      endedAt := Some(at);
      outcome := Some(result);
    }

    method FinishRun(k: nat, now: Instant, elapsed: int, prior: Option<int>) returns (steps: seq<Step>)
      requires Valid() && k < |phases|
      modifies this, phases
      ensures Move(View(), steps) ==
        Engine.FinishRun(old(View()), k, Engine.BankOpenPause(old(phases[k].Row()), now), now, elapsed, prior)
    {
      hide Rows, Engine.FinishOutcome, Engine.FinishSteps, Engine.With, Engine.FinishedAt;
      var live := phases[k];
      var kind := SpeedrunType(live);
      var result;
      result, steps := FinishFacts(live.seqNo, kind, live.planned, elapsed, now, prior);
      WinRun(k, elapsed, now, result);
    }

    static method FinishFacts(seqNo: nat, kind: RunType, planned: int, elapsed: int, now: Instant, prior: Option<int>)
      returns (result: RunOutcome, steps: seq<Step>)
      ensures result == Engine.FinishOutcome(kind, planned, elapsed, prior)
      ensures steps == Engine.FinishSteps(seqNo, kind, planned, elapsed, now, prior)
    {
      steps := [Step(PhaseCompleted, Some(seqNo), now, Some(elapsed))];
      if kind.TimeBoxed? {
        var margin := planned - elapsed;
        result := RunOutcome(Win, elapsed, None, Some(margin), None);
        steps := steps + [Step(SpeedrunCompleted, Some(seqNo), now, None, true, None,
                               BoxedWin(elapsed, elapsed >= MIN_RECORD_SECONDS, margin))];
      } else {
        var record := elapsed >= MIN_RECORD_SECONDS && (prior.None? || elapsed < prior.value);
        result := RunOutcome(if record then Record else Finished, elapsed, None, None, prior);
        steps := steps + [Step(SpeedrunCompleted, Some(seqNo), now, None, true, None, BestRun(elapsed, record, prior))];
        if record {
          steps := steps + [Step(RecordSet, Some(seqNo), now, None, true, None, NewRecord(prior, elapsed))];
        }
      }
      steps := steps + [Step(SessionEnded, None, now)];
    }
  }
}
