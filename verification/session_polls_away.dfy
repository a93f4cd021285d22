/** Polls leave no trace: a run and the same run without its polls are indistinguishable
    to every later reader. */
module SessionPollsAway {
  import opened SessionTypes
  import opened SessionEngine
  import opened SessionInvariant
  import opened SessionPolling
  import opened SessionVerbs
  import opened SessionLedger
  import opened SessionOrder
  import opened SessionRuns
  import opened SessionTheorems

  function WithoutPolls(calls: seq<Call>): seq<Call> {
    if |calls| == 0 then []
    else (if calls[0].request.Poll? then [] else [calls[0]]) + WithoutPolls(calls[1..])
  }

  /** Two sessions with their histories look the same to a reader at t. */
  ghost predicate SameView(a: Move, b: Move, t: Instant) {
    && Blur(Evaluate(a.session, t).session) == Blur(Evaluate(b.session, t).session)
    && a.steps + Evaluate(a.session, t).steps == b.steps + Evaluate(b.session, t).steps
  }

  /** ... and to every reader from c on. */
  ghost predicate Alike(a: Move, b: Move, c: Instant) { forall t :: c <= t ==> SameView(a, b, t) }

  /** `a` after its session is evaluated at `now`. */
  function After(a: Move, now: Instant): Move {
    Move(Evaluate(a.session, now).session, a.steps + Evaluate(a.session, now).steps)
  }

  lemma PollKeepsView(a: Move, now: Instant, t: Instant)
    requires Inv(a.session, now) && now <= t
    ensures SameView(After(a, now), a, t)
  {
    hide RowsOk, StatusOk, Evaluate, Blur;
    PollIndependence(a.session, now, t);
    var m := Evaluate(a.session, now);
    assert (a.steps + m.steps) + Evaluate(m.session, t).steps == a.steps + (m.steps + Evaluate(m.session, t).steps);
  }

  /** Evaluating either side keeps them alike. */
  lemma PollKeepsAlike(a: Move, b: Move, c: Instant, now: Instant)
    requires Alike(a, b, c) && c <= now && Inv(a.session, now) && Inv(b.session, now)
    ensures Alike(After(a, now), b, now) && Alike(a, After(b, now), now) && Alike(After(a, now), After(b, now), now)
  {
    hide RowsOk, StatusOk, Evaluate, Blur;
    forall t | now <= t
      ensures SameView(After(a, now), b, t) && SameView(a, After(b, now), t) && SameView(After(a, now), After(b, now), t)
    {
      PollKeepsView(a, now, t);
      PollKeepsView(b, now, t);
      assert SameView(a, b, t);
    }
  }

  /** A running session has no abandoned phase to blur. */
  lemma RunningIsSharp(s: Session, c: Instant)
    requires Inv(s, c) && s.status.Running?
    ensures Blur(s) == s
  {
    assert Blur(s).phases == s.phases;
  }

  /** The same request on both sides keeps them alike. */
  lemma RequestKeepsAlike(a: Move, b: Move, ca: Instant, cb: Instant, c: Instant, call: Call)
    requires Alike(a, b, c) && call.request.Act? && ca <= c && cb <= c <= call.now
    requires Resting(a.session, ca) && Resting(b.session, cb)
    ensures
      var ma, mb := Transact(a.session, call), Transact(b.session, call);
      Alike(Move(ma.session, a.steps + ma.steps), Move(mb.session, b.steps + mb.steps), call.now)
  {
    hide RowsOk, StatusOk, Posts, InOrder, EvaluateFrom, Apply, SamePlan, Quiet, Blur;
    var now := call.now;
    Evaluated(a.session, ca, now);
    Evaluated(b.session, cb, now);
    InvLater(a.session, ca, now);
    InvLater(b.session, cb, now);
    var ea, eb := Evaluate(a.session, now), Evaluate(b.session, now);
    assert SameView(a, b, now);
    SameStatus(ea.session, eb.session);
    PollKeepsAlike(a, b, c, now);
    SameMode(a.session, b.session, ea.session, eb.session);
    if Misplaced(a.session, call.request.verb) {
      StayAlike(a, b, c, now);
    } else if ea.session.status.Running? {
      RunningIsSharp(ea.session, now);
      RunningIsSharp(eb.session, now);
      var applied := Apply(ea.session, call.request.verb, now);
      if applied.Some? {
        var again := Evaluate(applied.value.session, now);
        assert a.steps + (ea.steps + (again.steps + applied.value.steps))
            == (a.steps + ea.steps) + (again.steps + applied.value.steps);
        assert b.steps + (eb.steps + (again.steps + applied.value.steps))
            == (b.steps + eb.steps) + (again.steps + applied.value.steps);
      } else {
        StayAlike(a, b, c, now);
      }
    } else {
      DeadRequest(a, call);
      DeadRequest(b, call);
    }
  }

  lemma SameStatus(s: Session, s': Session)
    requires Blur(s) == Blur(s')
    ensures s.status == s'.status
  {
    assert Blur(s).status == s.status;
  }

  lemma SameMode(s: Session, s': Session, e: Session, e': Session)
    requires SamePlan(s, e) && SamePlan(s', e') && Blur(e) == Blur(e')
    ensures IsSpeedrun(s) <==> IsSpeedrun(s')
  {
    assert |Blur(e).phases| == |Blur(e').phases|;
    if |e.phases| > 0 && |e'.phases| > 0 { assert Blur(e).phases[0].kind == Blur(e').phases[0].kind; }
  }

  lemma StayAlike(a: Move, b: Move, c: Instant, now: Instant)
    requires Alike(a, b, c) && c <= now
    ensures Alike(Move(a.session, a.steps + []), Move(b.session, b.steps + []), now)
  {
    assert a.steps + [] == a.steps && b.steps + [] == b.steps;
  }

  /** A verb on a session the clock has ended amounts to a poll. */
  lemma DeadRequest(a: Move, call: Call)
    requires call.request.Act? && !Misplaced(a.session, call.request.verb)
    requires !Evaluate(a.session, call.now).session.status.Running?
    ensures
      var m := Transact(a.session, call);
      Move(m.session, a.steps + m.steps) == After(a, call.now)
  {}

  lemma {:induction false} RunsAlike(a: Move, b: Move, ca: Instant, cb: Instant, c: Instant, calls: seq<Call>, end: Instant)
    requires Alike(a, b, c) && ca <= c && cb <= c <= end
    requires Resting(a.session, ca) && Resting(b.session, cb)
    requires Clocked(calls, c) && RunsTo(calls, end)
    ensures
      var ma, mb := Run(a.session, calls), Run(b.session, WithoutPolls(calls));
      Alike(Move(ma.session, a.steps + ma.steps), Move(mb.session, b.steps + mb.steps), end)
    decreases |calls|
  {
    hide RowsOk, StatusOk, Posts, InOrder, Transact, Evaluate, SamePlan, Quiet, Blur, SameView, Commits;
    if |calls| == 0 {
      StayAlike(a, b, c, end);
    } else {
      var call, rest := calls[0], calls[1..];
      TransactGood(a.session, ca, call);
      TransactGood(b.session, cb, call);
      var ma := Transact(a.session, call);
      var a' := Move(ma.session, a.steps + ma.steps);
      var ca' := if Commits(a.session, call) then call.now else ca;
      assert (a.steps + ma.steps) + Run(ma.session, rest).steps == a.steps + (ma.steps + Run(ma.session, rest).steps);
      if call.request.Poll? {
        PolledSide(a, b, ca, cb, c, call);
        RunsAlike(a', b, ca', cb, call.now, rest, end);
        assert [] + WithoutPolls(rest) == WithoutPolls(rest);
      } else {
        var mb := Transact(b.session, call);
        var b' := Move(mb.session, b.steps + mb.steps);
        var cb' := if Commits(b.session, call) then call.now else cb;
        RequestKeepsAlike(a, b, ca, cb, c, call);
        RunsAlike(a', b', ca', cb', call.now, rest, end);
        assert ([call] + WithoutPolls(rest))[1..] == WithoutPolls(rest);
        assert (b.steps + mb.steps) + Run(mb.session, WithoutPolls(rest)).steps
            == b.steps + (mb.steps + Run(mb.session, WithoutPolls(rest)).steps);
      }
    }
  }

  lemma PolledSide(a: Move, b: Move, ca: Instant, cb: Instant, c: Instant, call: Call)
    requires Alike(a, b, c) && call.request.Poll? && ca <= c && cb <= c <= call.now
    requires Resting(a.session, ca) && Resting(b.session, cb)
    ensures
      var m := Transact(a.session, call);
      Alike(Move(m.session, a.steps + m.steps), b, call.now)
  {
    hide RowsOk, StatusOk, Evaluate, Quiet, Alike;
    InvLater(a.session, ca, call.now);
    InvLater(b.session, cb, call.now);
    PollKeepsAlike(a, b, c, call.now);
  }

  /** Deleting every poll from a run changes nothing a reader can see at its end: the same
      session (up to the bank of an overflown pause) and exactly the same steps. */
  lemma PollsNeverMatter(s: Session, c: Instant, calls: seq<Call>, end: Instant)
    requires Resting(s, c) && Clocked(calls, c) && c <= end && RunsTo(calls, end)
    ensures SameView(Run(s, calls), Run(s, WithoutPolls(calls)), end)
  {
    hide RowsOk, StatusOk, Evaluate, Quiet, Blur;
    var start := Move(s, []);
    RunsAlike(start, start, c, c, c, calls, end);
    var a, b := Run(s, calls), Run(s, WithoutPolls(calls));
    assert [] + a.steps == a.steps && [] + b.steps == b.steps;
    assert SameView(Move(a.session, [] + a.steps), Move(b.session, [] + b.steps), end);
  }
}
