/** What the runs need of the clock. A request reads it before it waits for the session row,
    so the instants of a run are in the order the row was locked only if nobody overtakes. */
module SessionClock {
  import opened Basics
  import opened SessionTypes
  import opened SessionEngine
  import opened SessionInvariant
  import opened SessionPolling
  import opened SessionVerbs
  import opened SessionLedger
  import opened SessionRuns
  import opened SessionStart
  import opened SessionTheorems
  import opened SessionPollsAway

  predicate StepsInTime(steps: seq<Step>) { forall i, j :: 0 <= i < j < |steps| ==> steps[i].at <= steps[j].at }

  /** The calls read the clock at these instants, in the order the row was locked. */
  predicate ReadAt(calls: seq<Call>, ts: seq<Instant>) {
    |calls| == |ts| && forall k :: 0 <= k < |ts| ==> calls[k].now == ts[k]
  }

  /** Whatever session rests at c and whatever is asked at these instants, the steps come out
      in time. */
  ghost predicate KeepsOrder(ts: seq<Instant>, c: Instant) {
    forall s: Session, calls: seq<Call> ::
      Resting(s, c) && !IsStopwatch(s) && ReadAt(calls, ts) ==> StepsInTime(Run(s, calls).steps)
  }

  /** ... and no running phase owes pause time. */
  ghost predicate KeepsBanks(ts: seq<Instant>, c: Instant) {
    forall s: Session, calls: seq<Call> ::
      Resting(s, c) && ReadAt(calls, ts) ==> NoDebt(Run(s, calls).session)
  }

  /** ... and to a reader at `end` the run looks as it would without its polls. */
  ghost predicate KeepsViews(ts: seq<Instant>, c: Instant, end: Instant) {
    forall s: Session, calls: seq<Call> ::
      Resting(s, c) && ReadAt(calls, ts) ==> SameView(Run(s, calls), Run(s, WithoutPolls(calls)), end)
  }

  predicate NoDebt(s: Session) { forall k :: 0 <= k < |s.phases| && s.phases[k].IsLive() ==> s.phases[k].paused >= 0 }

  // --- One focus phase, as long as it takes ------------------------------------------------

  function OnePhase(c: Instant, long: nat, p: Phase): Session {
    Session(Running, c, None, true, true, 1, long, None, None, [p])
  }

  function Focused(c: Instant, long: nat, count: nat, bank: int): Session {
    OnePhase(c, long, Phase(0, Focus, Active, long, None, count, bank, None, Some(c), None))
  }

  function OnHold(c: Instant, long: nat, at: Instant): Session {
    OnePhase(c, long, Phase(0, Focus, Paused, long, None, 1, 0, Some(at), Some(c), None))
  }

  lemma FocusedIsQuiet(c: Instant, long: nat, count: nat, bank: int, now: Instant)
    requires now < c + long + bank
    ensures Evaluate(Focused(c, long, count, bank), now) == Move(Focused(c, long, count, bank), [])
  {
    var s := Focused(c, long, count, bank);
    assert LiveIndex(s.phases) == 0;
    QuietIff(s, 0, now);
  }

  lemma OnHoldIsQuiet(c: Instant, long: nat, at: Instant, now: Instant)
    requires now - at <= long
    ensures Evaluate(OnHold(c, long, at), now) == Move(OnHold(c, long, at), [])
  {
    var s := OnHold(c, long, at);
    assert LiveIndex(s.phases) == 0;
    QuietIff(s, 0, now);
  }

  lemma FocusedRests(c: Instant, long: nat)
    requires long > 0
    ensures Resting(Focused(c, long, 0, 0), c)
  {
    var s := Focused(c, long, 0, 0);
    FocusedIsQuiet(c, long, 0, 0, c);
    assert s.phases[0].kind.Focus?;
  }

  lemma PauseAtT(c: Instant, long: nat, t: Instant)
    requires t < c + long
    ensures Transact(Focused(c, long, 0, 0), Call(Act(DoPause), t))
         == Move(OnHold(c, long, t), [Step(PhasePaused, Some(0), t, extra := PauseNumber(1))])
  {
    hide Evaluate;
    var s := Focused(c, long, 0, 0);
    FocusedIsQuiet(c, long, 0, 0, t);
    OnHoldIsQuiet(c, long, t, t);
    assert LiveIndex(s.phases) == 0;
    assert Pause(s, t).value.session == OnHold(c, long, t);
  }

  lemma ResumeAtT(c: Instant, long: nat, at: Instant, t: Instant)
    requires t - at <= long && t < c + long + (t - at)
    ensures Transact(OnHold(c, long, at), Call(Act(DoResume), t))
         == Move(Focused(c, long, 1, t - at), [Step(PhaseResumed, Some(0), t, extra := PauseNumber(1))])
  {
    hide Evaluate;
    var s := OnHold(c, long, at);
    OnHoldIsQuiet(c, long, at, t);
    FocusedIsQuiet(c, long, 1, t - at, t);
    assert LiveIndex(s.phases) == 0;
    assert Resume(s, t).value.session == Focused(c, long, 1, t - at);
  }

  // --- A clock that runs back ------------------------------------------------------------------

  /** Reads, but for a pause at i and a resume at j. */
  function PauseAndResume(ts: seq<Instant>, i: nat, j: nat): seq<Call> {
    seq(|ts|, k requires 0 <= k < |ts| =>
      Call(if k == i then Act(DoPause) else if k == j then Act(DoResume) else Poll, ts[k]))
  }

  /** All instants are near c, in units of a quarter of the phase. */
  ghost predicate Near(ts: seq<Instant>, c: Instant, long: nat) {
    forall k :: 0 <= k < |ts| ==> c <= ts[k] && 4 * (ts[k] - c) < long
  }

  lemma {:induction false} AfterResume(ts: seq<Instant>, i: nat, j: nat, k: nat, c: Instant, long: nat, bank: int)
    requires i < j < k <= |ts| && Near(ts, c, long) && 2 * bank + long > 0
    ensures Run(Focused(c, long, 1, bank), PauseAndResume(ts, i, j)[k..]) == Move(Focused(c, long, 1, bank), [])
    decreases |ts| - k
  {
    hide Evaluate;
    var calls := PauseAndResume(ts, i, j);
    if k < |ts| {
      assert calls[k..][0] == Call(Poll, ts[k]) && calls[k..][1..] == calls[k + 1..];
      FocusedIsQuiet(c, long, 1, bank, ts[k]);
      AfterResume(ts, i, j, k + 1, c, long, bank);
    }
  }

  lemma {:induction false} OnHoldFrom(ts: seq<Instant>, i: nat, j: nat, k: nat, c: Instant, long: nat)
    requires i < k <= j < |ts| && Near(ts, c, long)
    ensures Run(OnHold(c, long, ts[i]), PauseAndResume(ts, i, j)[k..])
         == Move(Focused(c, long, 1, ts[j] - ts[i]), [Step(PhaseResumed, Some(0), ts[j], extra := PauseNumber(1))])
    decreases j - k
  {
    hide Evaluate, Transact;
    var calls := PauseAndResume(ts, i, j);
    assert calls[k..][1..] == calls[k + 1..];
    if k == j {
      assert calls[k..][0] == Call(Act(DoResume), ts[j]);
      ResumeAtT(c, long, ts[i], ts[j]);
      AfterResume(ts, i, j, k + 1, c, long, ts[j] - ts[i]);
    } else {
      assert calls[k..][0] == Call(Poll, ts[k]);
      OnHoldIsQuiet(c, long, ts[i], ts[k]);
      PollIsRead(OnHold(c, long, ts[i]), ts[k]);
      OnHoldFrom(ts, i, j, k + 1, c, long);
    }
  }

  lemma PollIsRead(s: Session, now: Instant)
    ensures Transact(s, Call(Poll, now)) == Evaluate(s, now)
  {}

  lemma {:induction false} FocusedFrom(ts: seq<Instant>, i: nat, j: nat, k: nat, c: Instant, long: nat)
    requires k <= i < j < |ts| && Near(ts, c, long)
    ensures Run(Focused(c, long, 0, 0), PauseAndResume(ts, i, j)[k..])
         == Move(Focused(c, long, 1, ts[j] - ts[i]),
                 [Step(PhasePaused, Some(0), ts[i], extra := PauseNumber(1)),
                  Step(PhaseResumed, Some(0), ts[j], extra := PauseNumber(1))])
    decreases i - k
  {
    hide Evaluate, Transact;
    var calls := PauseAndResume(ts, i, j);
    assert calls[k..][1..] == calls[k + 1..];
    if k == i {
      assert calls[k..][0] == Call(Act(DoPause), ts[i]);
      PauseAtT(c, long, ts[i]);
      OnHoldFrom(ts, i, j, k + 1, c, long);
    } else {
      assert calls[k..][0] == Call(Poll, ts[k]);
      FocusedIsQuiet(c, long, 0, 0, ts[k]);
      PollIsRead(Focused(c, long, 0, 0), ts[k]);
      FocusedFrom(ts, i, j, k + 1, c, long);
    }
  }

  lemma {:induction false} LongEnough(ts: seq<Instant>, c: Instant) returns (long: nat)
    requires forall k :: 0 <= k < |ts| ==> c <= ts[k]
    ensures long > 0 && Near(ts, c, long)
  {
    if ts == [] {
      long := 1;
    } else {
      var before := LongEnough(ts[..|ts| - 1], c);
      long := Max(before, 4 * (ts[|ts| - 1] - c) + 1);
      forall k | 0 <= k < |ts| ensures c <= ts[k] && 4 * (ts[k] - c) < long {
        if k < |ts| - 1 { assert ts[..|ts| - 1][k] == ts[k]; }
      }
    }
  }

  /** A run is in order for every session and every request exactly when the clock readings
      are nondecreasing in the order the row was locked. */
  lemma OrderNeedsTheClock(ts: seq<Instant>, c: Instant)
    requires forall k :: 0 <= k < |ts| ==> c <= ts[k]
    ensures KeepsOrder(ts, c) <==> Nondecreasing(ts)
  {
    hide Resting, Run;
    if Nondecreasing(ts) {
      forall s: Session, calls: seq<Call> | Resting(s, c) && !IsStopwatch(s) && ReadAt(calls, ts)
        ensures StepsInTime(Run(s, calls).steps)
      {
        InTime(s, c, calls, ts);
      }
    } else {
      var i, j :| 0 <= i < j < |ts| && ts[i] > ts[j];
      DescentBreaksOrder(ts, c, i, j);
    }
  }

  /** The same holds of the pause accounts. */
  lemma BanksNeedTheClock(ts: seq<Instant>, c: Instant)
    requires forall k :: 0 <= k < |ts| ==> c <= ts[k]
    ensures KeepsBanks(ts, c) <==> Nondecreasing(ts)
  {
    hide Resting, Run;
    if Nondecreasing(ts) {
      forall s: Session, calls: seq<Call> | Resting(s, c) && ReadAt(calls, ts)
        ensures NoDebt(Run(s, calls).session)
      {
        BooksKept(s, c, calls, ts);
      }
    } else {
      var i, j :| 0 <= i < j < |ts| && ts[i] > ts[j];
      DescentBreaksBanks(ts, c, i, j);
    }
  }

  lemma BooksKept(s: Session, c: Instant, calls: seq<Call>, ts: seq<Instant>)
    requires Nondecreasing(ts) && ReadAt(calls, ts) && (forall k :: 0 <= k < |ts| ==> c <= ts[k])
    requires Resting(s, c)
    ensures NoDebt(Run(s, calls).session)
  {
    hide Resting, Run, Posts, StatusOk;
    var end := if |ts| == 0 then c else ts[|ts| - 1];
    RunGood(s, c, calls, end);
    var s' := Run(s, calls).session;
    forall k | 0 <= k < |s'.phases| && s'.phases[k].IsLive() ensures s'.phases[k].paused >= 0 {
      assert PhaseOk(s', s'.phases[k], end);
    }
  }

  lemma DescentBreaksBanks(ts: seq<Instant>, c: Instant, i: nat, j: nat)
    requires forall k :: 0 <= k < |ts| ==> c <= ts[k]
    requires i < j < |ts| && ts[i] > ts[j]
    ensures !KeepsBanks(ts, c)
  {
    hide Resting, Run;
    var long := LongEnough(ts, c);
    var s, calls := Focused(c, long, 0, 0), PauseAndResume(ts, i, j);
    FocusedRests(c, long);
    FocusedFrom(ts, i, j, 0, c, long);
    assert calls[0..] == calls && ReadAt(calls, ts);
    var p := Run(s, calls).session.phases[0];
    assert p.IsLive() && p.paused == ts[j] - ts[i];
  }

  lemma DescentBreaksOrder(ts: seq<Instant>, c: Instant, i: nat, j: nat)
    requires forall k :: 0 <= k < |ts| ==> c <= ts[k]
    requires i < j < |ts| && ts[i] > ts[j]
    ensures !KeepsOrder(ts, c)
  {
    hide Resting, Run;
    var long := LongEnough(ts, c);
    var s, calls := Focused(c, long, 0, 0), PauseAndResume(ts, i, j);
    FocusedRests(c, long);
    FocusedFrom(ts, i, j, 0, c, long);
    assert calls[0..] == calls && ReadAt(calls, ts);
    var steps := Run(s, calls).steps;
    assert |steps| == 2 && steps[0].at == ts[i] && steps[1].at == ts[j];
  }

  lemma InTime(s: Session, c: Instant, calls: seq<Call>, ts: seq<Instant>)
    requires Nondecreasing(ts) && ReadAt(calls, ts) && (forall k :: 0 <= k < |ts| ==> c <= ts[k])
    requires Resting(s, c) && !IsStopwatch(s)
    ensures StepsInTime(Run(s, calls).steps)
  {
    hide Resting, Run;
    var end := if |ts| == 0 then c else ts[|ts| - 1];
    RunInOrder(s, c, calls, end);
  }

  // --- Polls that overtake a verb ---------------------------------------------------------------

  /** Reads, but for a pause at j. */
  function PauseAmongPolls(ts: seq<Instant>, j: nat): seq<Call> {
    seq(|ts|, k requires 0 <= k < |ts| => Call(if k == j then Act(DoPause) else Poll, ts[k]))
  }

  lemma {:induction false} OnlyThePauseIsLeft(ts: seq<Instant>, j: nat, k: nat)
    requires j < |ts| && k <= |ts|
    ensures WithoutPolls(PauseAmongPolls(ts, j)[k..]) == if k <= j then [Call(Act(DoPause), ts[j])] else []
    decreases |ts| - k
  {
    var calls := PauseAmongPolls(ts, j);
    if k < |ts| {
      assert calls[k..][1..] == calls[k + 1..];
      OnlyThePauseIsLeft(ts, j, k + 1);
    }
  }

  lemma FocusedEnds(c: Instant, long: nat, now: Instant)
    requires c + long <= now
    ensures
      var m := Evaluate(Focused(c, long, 0, 0), now);
      |m.steps| > 0 && m.steps[0].kind.PhaseCompleted?
  {
    var s := Focused(c, long, 0, 0);
    assert LiveIndex(s.phases) == 0;
    LoopTurn(s, 0, c, now);
  }

  /** The first poll that reads the end of the phase completes it. */
  lemma {:induction false} PolledFrom(ts: seq<Instant>, i: nat, j: nat, k: nat, c: Instant, long: nat)
    requires k <= i < j < |ts| && c + long <= ts[i]
    ensures
      var m := Run(Focused(c, long, 0, 0), PauseAmongPolls(ts, j)[k..]);
      |m.steps| > 0 && m.steps[0].kind.PhaseCompleted?
    decreases i - k
  {
    hide Evaluate, Focused;
    var calls := PauseAmongPolls(ts, j);
    assert calls[k..][0] == Call(Poll, ts[k]) && calls[k..][1..] == calls[k + 1..];
    if c + long <= ts[k] {
      FocusedEnds(c, long, ts[k]);
    } else {
      FocusedIsQuiet(c, long, 0, 0, ts[k]);
      PolledFrom(ts, i, j, k + 1, c, long);
    }
  }

  lemma DescentBreaksViews(ts: seq<Instant>, c: Instant, end: Instant, i: nat, j: nat)
    requires forall k :: 0 <= k < |ts| ==> c <= ts[k] <= end
    requires i < j < |ts| && ts[i] > ts[j]
    ensures !KeepsViews(ts, c, end)
  {
    hide Resting, Run, Evaluate, Focused, Blur;
    var long := ts[j] + 1 - c;
    var s, calls := Focused(c, long, 0, 0), PauseAmongPolls(ts, j);
    FocusedRests(c, long);
    assert calls[0..] == calls && ReadAt(calls, ts);
    PolledFrom(ts, i, j, 0, c, long);
    OnlyThePauseIsLeft(ts, j, 0);
    PauseAtT(c, long, ts[j]);
    OneCall(s, Call(Act(DoPause), ts[j]));
    var a, b := Run(s, calls), Run(s, WithoutPolls(calls));
    assert (a.steps + Evaluate(a.session, end).steps)[0] == a.steps[0];
    assert (b.steps + Evaluate(b.session, end).steps)[0] == b.steps[0];
    assert !SameView(a, b, end);
  }

  lemma OneCall(s: Session, call: Call)
    ensures Run(s, [call]) == Transact(s, call)
  {
    hide Transact;
    var m := Transact(s, call);
    assert Run(m.session, [call][1..]) == Move(m.session, []);
    assert m.steps + [] == m.steps;
  }

  /** And so do the polls: they leave no trace for every session and every request exactly
      when the readings are nondecreasing in the order the row was locked. */
  lemma PollsNeedTheClock(ts: seq<Instant>, c: Instant, end: Instant)
    requires c <= end && forall k :: 0 <= k < |ts| ==> c <= ts[k] <= end
    ensures KeepsViews(ts, c, end) <==> Nondecreasing(ts)
  {
    hide Resting, Run, SameView;
    if Nondecreasing(ts) {
      forall s: Session, calls: seq<Call> | Resting(s, c) && ReadAt(calls, ts)
        ensures SameView(Run(s, calls), Run(s, WithoutPolls(calls)), end)
      {
        PollsNeverMatter(s, c, calls, end);
      }
    } else {
      var i, j :| 0 <= i < j < |ts| && ts[i] > ts[j];
      DescentBreaksViews(ts, c, end, i, j);
    }
  }

  /** Two requests are enough: a pause that reads 5, then a resume that read 2 and waited,
      leave a bank of -3 seconds on a session that was started like any other. */
  lemma OvertakenResume()
    ensures
      var req := StartRequest(TimerMode, [Leg(Focus, 25)], None, false, true, true, 1, 1500);
      && SchemaOk(req) && Plan(req).Some?
      && var s := StartSession(req, Plan(req).value, 0);
         var m := Run(s, [Call(Act(DoPause), 5), Call(Act(DoResume), 2)]);
         && Resting(s, 0) && s == Focused(0, 1500, 0, 0)
         && m == Move(Focused(0, 1500, 1, -3),
                      [Step(PhasePaused, Some(0), 5, extra := PauseNumber(1)),
                       Step(PhaseResumed, Some(0), 2, extra := PauseNumber(1))])
  {
    var req := StartRequest(TimerMode, [Leg(Focus, 25)], None, false, true, true, 1, 1500);
    assert req.legs[0].kind.Focus?;
    var s := StartSession(req, Plan(req).value, 0);
    assert s == Focused(0, 1500, 0, 0);
    StartRests(req, 0);
    var calls := PauseAndResume([5, 2], 0, 1);
    assert calls == [Call(Act(DoPause), 5), Call(Act(DoResume), 2)];
    FocusedFrom([5, 2], 0, 1, 0, 0, 1500);
    assert calls[0..] == calls;
  }
}
