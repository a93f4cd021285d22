/** The replay does not depend on when, or how often, the server is polled. */
module SessionPolling {
  import opened Basics
  import opened SessionTypes
  import opened SessionEngine
  import opened SessionInvariant

  /** A session with the bank of an overflown pause left out: it is banked up to the polling
      instant. Only a focus phase that died with its budget overdrawn has one. */
  function Blur(s: Session): Session {
    s.(phases := seq(|s.phases|, i requires 0 <= i < |s.phases| => BlurPhase(s.phases[i], s.budgetSeconds)))
  }

  function BlurPhase(p: Phase, budgetSeconds: int): Phase {
    if p.kind.Focus? && p.status.Abandoned? && p.paused > budgetSeconds then p.(paused := 0) else p
  }

  /** The move ends with the session dying of its pause budget. */
  predicate Overflew(steps: seq<Step>) {
    |steps| > 0 && steps[|steps| - 1].reason == Some(PauseOverflow)
  }

  /** m2 continues m1 where one evaluation m would have gone: the same steps, and the
      same session, except that an overflown pause is banked to the first poll's instant. */
  ghost predicate Continues(m1: Move, m2: Move, m: Move, sameInstant: bool) {
    && Blur(m2.session) == Blur(m.session)
    && m1.steps + m2.steps == m.steps
    && (m2.session == m.session <==> sameInstant || !Overflew(m1.steps))
  }

  lemma ResolveTwice(s: Session, lastEnd: Instant, t1: Instant, t2: Instant)
    requires t1 <= t2
    requires LiveIndex(s.phases) == |s.phases| && s.status.Running? && Anchor(s, lastEnd)
    ensures
      var m1 := ResolveNoLive(s, lastEnd, t1);
      var m2 := Evaluate(m1.session, t2);
      var m := ResolveNoLive(s, lastEnd, t2);
      m2.session == m.session && m1.steps + m2.steps == m.steps && !Overflew(m1.steps)
  {}

  lemma DeadlineTwice(s: Session, k: nat, t1: Instant, t2: Instant)
    requires t1 <= t2 && k < |s.phases| && s.phases[k].started.Some?
    ensures CheckSpeedrunDeadline(s, k, t1).Some? ==>
      CheckSpeedrunDeadline(s, k, t2) == CheckSpeedrunDeadline(s, k, t1)
  {}

  lemma OverflowTwice(s: Session, k: nat, t1: Instant, t2: Instant)
    requires t1 <= t2 && k < |s.phases| && s.phases[k].pauseStarted.Some? && s.phases[k].kind.Focus?
    requires s.phases[k].paused + PausedFor(s.phases[k], t1) > s.budgetSeconds
    ensures
      var m1, m2 := CheckPauseOverflow(s, k, t1), CheckPauseOverflow(s, k, t2);
      Blur(m1.session) == Blur(m2.session) && m1.steps == m2.steps
      && (m1.session == m2.session <==> t1 == t2) && Overflew(m1.steps)
  {
    var m1, m2 := CheckPauseOverflow(s, k, t1), CheckPauseOverflow(s, k, t2);
    var at := CrossedAt(s, k);
    var ps1, ps2 := s.phases[k := Overflown(s.phases[k], at, t1)], s.phases[k := Overflown(s.phases[k], at, t2)];
    SameSkips(ps1, ps2, at);
    assert Blur(m1.session).phases == Blur(m2.session).phases;
    assert m1.session.phases[k].paused == s.phases[k].paused + PausedFor(s.phases[k], t1);
    assert m2.session.phases[k].paused == s.phases[k].paused + PausedFor(s.phases[k], t2);
  }

  lemma SameSkips(ps1: seq<Phase>, ps2: seq<Phase>, at: Instant)
    requires |ps1| == |ps2|
    requires forall i :: 0 <= i < |ps1| ==>
      ps1[i].seqNo == ps2[i].seqNo && (ps1[i].status.Pending? <==> ps2[i].status.Pending?)
    ensures SkipSteps(ps1, at) == SkipSteps(ps2, at)
  {
    if |ps1| > 0 { SameSkips(ps1[..|ps1| - 1], ps2[..|ps2| - 1], at); }
  }

  /** The loop stops at t1 on a live phase. */
  lemma LiveTwice(s: Session, k: nat, lastEnd: Instant, t1: Instant, t2: Instant)
    requires t1 <= t2 && s.status.Running? && Anchor(s, lastEnd)
    requires k == LiveIndex(s.phases) < |s.phases| && !Elapsed(s, k, t1)
    requires s.phases[k].started.Some?
    requires s.phases[k].status.Paused? ==> s.phases[k].pauseStarted.Some? && !s.phases[k].kind.Break?
    ensures
      var m1 := EvaluateFrom(s, lastEnd, t1);
      Continues(m1, Evaluate(m1.session, t2), EvaluateFrom(s, lastEnd, t2), t1 == t2)
  {
    var cur := s.phases[k];
    if cur.kind.Speedrun? {
      DeadlineTwice(s, k, t1, t2);
    } else if !cur.kind.Stopwatch? && cur.status.Paused? {
      if cur.paused + PausedFor(cur, t1) > s.budgetSeconds { OverflowTwice(s, k, t1, t2); }
    }
  }

  lemma {:induction false} TwoPolls(s: Session, lastEnd: Instant, t1: Instant, t2: Instant)
    requires t1 <= t2 && Inv(s, t1) && s.status.Running? && Anchor(s, lastEnd)
    ensures
      var m1 := EvaluateFrom(s, lastEnd, t1);
      Continues(m1, Evaluate(m1.session, t2), EvaluateFrom(s, lastEnd, t2), t1 == t2)
    decreases OpenSet(s.phases)
  {
    var k := LiveIndex(s.phases);
    if k == |s.phases| {
      ResolveTwice(s, lastEnd, t1, t2);
    } else {
      assert PhaseOk(s, s.phases[k], t1);
      if Elapsed(s, k, t1) {
        var end := PhaseEnd(s.phases[k], t1);
        var m := CompletePhase(s, k, end);
        CompletePhaseKeeps(s, k, end, t1);
        CompletionCloses(s, k, end);
        TwoPolls(m.session, end, t1, t2);
        TurnTwice(s, k, lastEnd, t1, t2, m, EvaluateFrom(m.session, end, t1), EvaluateFrom(m.session, end, t2));
      } else {
        LiveTwice(s, k, lastEnd, t1, t2);
      }
    }
  }

  lemma Prepend(first: seq<Step>, m1: Move, m2: Move, m: Move, same: bool)
    requires Continues(m1, m2, m, same) && !Overflew(first)
    ensures Continues(Move(m1.session, first + m1.steps), m2, Move(m.session, first + m.steps), same)
  {
    assert (first + m1.steps) + m2.steps == first + (m1.steps + m2.steps);
  }

  lemma CompletionIsNoOverflow(s: Session, k: nat, end: Instant)
    requires k < |s.phases|
    ensures !Overflew(CompletePhase(s, k, end).steps)
  {}

  lemma StillElapsed(s: Session, k: nat, t1: Instant, t2: Instant)
    requires t1 <= t2 && Elapsed(s, k, t1) && s.phases[k].started.Some?
    ensures Elapsed(s, k, t2) && PhaseEnd(s.phases[k], t2) == PhaseEnd(s.phases[k], t1)
  {}

  lemma TurnTwice(s: Session, k: nat, lastEnd: Instant, t1: Instant, t2: Instant, m: Move, m1: Move, m2: Move)
    requires t1 <= t2 && Elapsed(s, k, t1) && s.phases[k].started.Some?
    requires m == CompletePhase(s, k, PhaseEnd(s.phases[k], t1))
    requires m1 == EvaluateFrom(m.session, PhaseEnd(s.phases[k], t1), t1)
    requires m2 == EvaluateFrom(m.session, PhaseEnd(s.phases[k], t1), t2)
    requires Continues(m1, Evaluate(m1.session, t2), m2, t1 == t2)
    ensures Continues(EvaluateFrom(s, lastEnd, t1), Evaluate(EvaluateFrom(s, lastEnd, t1).session, t2),
                      EvaluateFrom(s, lastEnd, t2), t1 == t2)
  {
    hide Evaluate, EvaluateFrom, CompletePhase, Blur, PhaseEnd, OrElse;
    StillElapsed(s, k, t1, t2);
    CompletionIsNoOverflow(s, k, PhaseEnd(s.phases[k], t1));
    LoopTurn(s, k, lastEnd, t1);
    LoopTurn(s, k, lastEnd, t2);
    assert EvaluateFrom(s, lastEnd, t1) == Move(m1.session, m.steps + m1.steps);
    assert EvaluateFrom(s, lastEnd, t2) == Move(m2.session, m.steps + m2.steps);
    Prepend(m.steps, m1, Evaluate(m1.session, t2), m2, t1 == t2);
  }

  // --- Who meets an overflown pause ------------------------------------------------

  /** At t the session's live phase is a paused focus phase over its seconds budget. */
  predicate PauseOverrun(s: Session, t: Instant) {
    var k := LiveIndex(s.phases);
    && s.status.Running? && k < |s.phases|
    && s.phases[k].status.Paused? && s.phases[k].kind.Focus?
    && s.phases[k].paused + PausedFor(s.phases[k], t) > s.budgetSeconds
  }

  /** What the loop starts is not paused. */
  lemma CompletionLeavesNoPause(s: Session, k: nat, end: Instant)
    requires k == LiveIndex(s.phases) < |s.phases| && Ordered(s.phases)
    ensures
      var s' := CompletePhase(s, k, end).session;
      var n := LiveIndex(s'.phases);
      n < |s'.phases| ==> !s'.phases[n].status.Paused?
  {
    var s' := CompletePhase(s, k, end).session;
    var n := LiveIndex(s'.phases);
    if n < |s'.phases| && n > k { assert s.phases[n].IsLive() ==> s.phases[k].Terminal(); }
  }

  lemma {:induction false} NoPauseNoOverflow(s: Session, lastEnd: Instant, t: Instant)
    requires Inv(s, t) && s.status.Running? && Anchor(s, lastEnd)
    requires LiveIndex(s.phases) < |s.phases| ==> !s.phases[LiveIndex(s.phases)].status.Paused?
    ensures !Overflew(EvaluateFrom(s, lastEnd, t).steps)
    decreases OpenSet(s.phases)
  {
    hide RowsOk, StatusOk, CompletePhase, OpenSet, PhaseEnd;
    var k := LiveIndex(s.phases);
    if k < |s.phases| && Elapsed(s, k, t) {
      var end := PhaseEnd(s.phases[k], t);
      var m := CompletePhase(s, k, end);
      CompletePhaseKeeps(s, k, end, t);
      CompletionCloses(s, k, end);
      OrderedRows(s, t);
      CompletionLeavesNoPause(s, k, end);
      CompletionIsNoOverflow(s, k, end);
      NoPauseNoOverflow(m.session, end, t);
      LoopTurn(s, k, lastEnd, t);
    }
  }

  lemma OrderedRows(s: Session, t: Instant)
    requires Inv(s, t)
    ensures Ordered(s.phases)
  {}

  /** An evaluation meets an overflown pause exactly when the session it is given is paused
      over its budget: the replay never gets into a pause. */
  lemma OverflewIff(s: Session, t: Instant)
    requires Inv(s, t)
    ensures Overflew(Evaluate(s, t).steps) <==> PauseOverrun(s, t)
  {
    if s.status.Running? {
      var k := LiveIndex(s.phases);
      var lastEnd := LastEnd(s.phases, s.startedAt);
      if k < |s.phases| && s.phases[k].status.Paused? {
        assert PhaseOk(s, s.phases[k], t);
        LoopStops(s, k, lastEnd, t);
      } else {
        NoPauseNoOverflow(s, lastEnd, t);
      }
    }
  }

  /** Poll independence: evaluating at t1 and again at t2 leaves what one evaluation at
      t2 leaves and emits the same steps, for every session and every pair of instants.
      The sessions are equal, to the last column, exactly when the instants are or the session
      was not paused over its budget at t1. */
  lemma PollIndependence(s: Session, t1: Instant, t2: Instant)
    requires t1 <= t2 && Inv(s, t1)
    ensures
      var m1 := Evaluate(s, t1);
      var m2, m := Evaluate(m1.session, t2), Evaluate(s, t2);
      && Blur(m2.session) == Blur(m.session)
      && m1.steps + m2.steps == m.steps
      && (m2.session == m.session <==> t1 == t2 || !PauseOverrun(s, t1))
  {
    OverflewIff(s, t1);
    if s.status.Running? { TwoPolls(s, LastEnd(s.phases, s.startedAt), t1, t2); }
  }

  /** Nothing is due at `now`. */
  ghost predicate Quiet(s: Session, now: Instant) { Evaluate(s, now) == Move(s, []) }

  /** Evaluation is idempotent at one instant. */
  lemma EvaluateSettles(s: Session, now: Instant)
    requires Inv(s, now)
    ensures Quiet(Evaluate(s, now).session, now)
  {
    PollIndependence(s, now, now);
    var m := Evaluate(s, now);
    var again := Evaluate(m.session, now);
    assert |m.steps + again.steps| == |m.steps|;
  }

  // --- Whole schedules of polls -------------------------------------------------

  predicate Nondecreasing(ts: seq<Instant>) { forall i, j :: 0 <= i < j < |ts| ==> ts[i] <= ts[j] }

  /** Polling at every instant of a schedule, oldest first. */
  function PollAll(s: Session, ts: seq<Instant>): Move
    decreases |ts|
  {
    if |ts| == 0 then Move(s, [])
    else
      var m := Evaluate(s, ts[0]);
      var rest := PollAll(m.session, ts[1..]);
      Move(rest.session, m.steps + rest.steps)
  }

  /** Any schedule of polls amounts to its last poll alone. */
  lemma {:induction false} AnySchedule(s: Session, ts: seq<Instant>)
    requires |ts| > 0 && Nondecreasing(ts) && Inv(s, ts[0])
    ensures
      var all, one := PollAll(s, ts), Evaluate(s, ts[|ts| - 1]);
      Blur(all.session) == Blur(one.session) && all.steps == one.steps
    decreases |ts|
  {
    var m := Evaluate(s, ts[0]);
    if |ts| == 1 {
      assert PollAll(m.session, ts[1..]) == Move(m.session, []);
    } else {
      var last := ts[|ts| - 1];
      EvaluateKeeps(s, ts[0], ts[0]);
      InvLater(m.session, ts[0], ts[1]);
      AnySchedule(m.session, ts[1..]);
      PollIndependence(s, ts[0], last);
    }
  }
}
