/** Whole runs of a session: every request is one locked transaction. */
module SessionRuns {
  import opened Basics
  import opened SessionTypes
  import opened SessionEngine
  import opened SessionInvariant
  import opened SessionPolling
  import opened SessionVerbs
  import opened SessionShape
  import opened SessionLedger
  import opened SessionOrder

  /** What a request asks for; a read is a poll. */
  datatype Request = Poll | Act(verb: Verb)

  datatype Call = Call(request: Request, now: Instant)

  /** Only a speedrun can be declared done; anything else is refused before it is evaluated. */
  predicate Misplaced(s: Session, v: Verb) { v.DoFinish? && !IsSpeedrun(s) }

  /** evaluate, apply the verb, evaluate again. A refused verb rolls its transaction back. */
  function Transact(s: Session, call: Call): Move {
    match call.request
    case Poll => Evaluate(s, call.now)
    case Act(v) =>
      var m := Evaluate(s, call.now);
      if !s.status.Running? || Misplaced(s, v) then Move(s, [])
      else if !m.session.status.Running? then m
      else
        match Apply(m.session, v, call.now)
        case None => Move(s, [])
        case Some(done) =>
          var again := Evaluate(done.session, call.now);
          Move(again.session, m.steps + (again.steps + done.steps))
  }

  /** A request leaves a session that is over, or that is asked for a finish it cannot have, as it
      was; it evaluates first; and it commits either the evaluation alone, when that ended the
      session, or nothing, or the verb between two evaluations at its own instant, with the steps of
      the verb in the second batch, last. */
  lemma RequestLaw(s: Session, v: Verb, now: Instant)
    ensures
      var first, m := Evaluate(s, now), Transact(s, Call(Act(v), now));
      if !s.status.Running? then m == Move(s, [])
      else if v.DoFinish? && !(|s.phases| == 1 && s.phases[0].kind.Speedrun?) then m == Move(s, [])
      else if !first.session.status.Running? then m == first
      else
        var verb := match v
                    case DoPause => Pause(first.session, now)
                    case DoResume => Resume(first.session, now)
                    case DoAdvance => Advance(first.session, now)
                    case DoStop => Some(Stop(first.session, now))
                    case DoFinish(prior) => Done(first.session, now, prior);
        if verb.None? then m == Move(s, [])
        else
          var last := Evaluate(verb.value.session, now);
          m == Move(last.session, first.steps + (last.steps + verb.value.steps))
  {
    hide Evaluate, Pause, Resume, Advance, Stop, Done;
  }

  function Run(s: Session, calls: seq<Call>): Move
    decreases |calls|
  {
    if |calls| == 0 then Move(s, [])
    else
      var m := Transact(s, calls[0]);
      var rest := Run(m.session, calls[1..]);
      Move(rest.session, m.steps + rest.steps)
  }

  /** The server clock never runs backwards over a run that starts at c. */
  ghost predicate Clocked(calls: seq<Call>, c: Instant) {
    && (forall i :: 0 <= i < |calls| ==> c <= calls[i].now)
    && (forall i, j :: 0 <= i < j < |calls| ==> calls[i].now <= calls[j].now)
  }

  /** A request the transaction commits something for. */
  predicate Commits(s: Session, call: Call) {
    || call.request.Poll?
    || (s.status.Running? && !Misplaced(s, call.request.verb)
        && (Evaluate(s, call.now).session.status.Running? ==>
            Apply(Evaluate(s, call.now).session, call.request.verb, call.now).Some?))
  }

  /** A session between requests: consistent, and nothing was due at c. */
  ghost predicate Resting(s: Session, c: Instant) { Inv(s, c) && Quiet(s, c) }

  // --- Whatever the clock reads ----------------------------------------------------------

  lemma EvaluatePosts(s: Session, now: Instant)
    requires Shape(s)
    ensures Posts(s, Evaluate(s, now))
  {
    hide Shape, Posts, EvaluateFrom;
    if s.status.Running? {
      EvaluateFromPosts(s, LastEnd(s.phases, s.startedAt), now);
    } else {
      StayPosts(s);
    }
  }

  /** The order in which a move lists its steps is no part of what it posts. */
  lemma PostsInAnyOrder(s: Session, s': Session, a: seq<Step>, b: seq<Step>)
    requires Posts(s, Move(s', a + b))
    ensures Posts(s, Move(s', b + a))
  {
    var ab, ba := a + b, b + a;
    forall i | 0 <= i < |ba| ensures ba[i] == ab[if i < |b| then |a| + i else i - |b|] {}
  }

  /** A verb and the evaluation after it, listed in the order the service persists them. */
  lemma VerbThenEvaluatePosts(s: Session, v: Verb, now: Instant)
    requires Shape(s) && s.status.Running? && Apply(s, v, now).Some?
    ensures
      var done := Apply(s, v, now).value;
      var again := Evaluate(done.session, now);
      Shape(again.session) && Posts(s, Move(again.session, again.steps + done.steps))
  {
    hide Shape, Posts, Evaluate, Apply, SamePlan;
    var done := Apply(s, v, now).value;
    var again := Evaluate(done.session, now);
    VerbShapes(s, v, now);
    VerbPosts(s, v, now);
    EvaluateShapes(done.session, now);
    EvaluatePosts(done.session, now);
    PostsThen(s, done, again);
    PostsInAnyOrder(s, again.session, done.steps, again.steps);
  }

  /** One request keeps the shape and posts each transition once, whatever its clock read. */
  lemma TransactPosts(s: Session, call: Call)
    requires Shape(s)
    ensures Shape(Transact(s, call).session) && Posts(s, Transact(s, call))
  {
    hide Shape, Posts, Evaluate, Apply, SamePlan;
    var m := Evaluate(s, call.now);
    EvaluateShapes(s, call.now);
    EvaluatePosts(s, call.now);
    StayPosts(s);
    if call.request.Act? && m.session.status.Running? {
      var v := call.request.verb;
      if Apply(m.session, v, call.now).Some? {
        var done := Apply(m.session, v, call.now).value;
        var again := Evaluate(done.session, call.now);
        VerbThenEvaluatePosts(m.session, v, call.now);
        PostsThen(s, m, Move(again.session, again.steps + done.steps));
      }
    }
  }

  /** Any list of calls, overtaking each other as they may, keeps the shape and posts each
      transition once. */
  lemma {:induction false} RunPosts(s: Session, calls: seq<Call>)
    requires Shape(s)
    ensures Shape(Run(s, calls).session) && Posts(s, Run(s, calls))
    decreases |calls|
  {
    hide Shape, Posts, Transact;
    if |calls| == 0 {
      StayPosts(s);
    } else {
      var m := Transact(s, calls[0]);
      TransactPosts(s, calls[0]);
      RunPosts(m.session, calls[1..]);
      PostsThen(s, m, Run(m.session, calls[1..]));
    }
  }

  // --- When the clock does not run backwards -----------------------------------------------

  /** The state between the evaluation and the verb of one request. */
  lemma Evaluated(s: Session, c: Instant, now: Instant)
    requires Resting(s, c) && c <= now
    ensures Resting(Evaluate(s, now).session, now)
    ensures SamePlan(s, Evaluate(s, now).session)
    ensures Posts(s, Evaluate(s, now))
    ensures InOrder(Evaluate(s, now).steps, c, now)
  {
    hide RowsOk, StatusOk, Posts, InOrder, EvaluateFrom, Quiet;
    EvaluateKeeps(s, c, now);
    InvLater(s, c, now);
    EvaluateSettles(s, now);
    QuietThenLater(s, c, now);
    InvHasShape(s, c);
    EvaluatePosts(s, now);
  }

  /** What one request does to a resting session. */
  ghost predicate GoodMove(s: Session, m: Move, c: Instant, now: Instant) {
    && Inv(m.session, now)
    && SamePlan(s, m.session)
    && Posts(s, m)
    && (!IsStopwatch(s) ==> InOrder(m.steps, c, now))
  }

  lemma VerbMove(s: Session, v: Verb, now: Instant)
    requires Resting(s, now) && s.status.Running? && Apply(s, v, now).Some?
    ensures
      var done := Apply(s, v, now).value;
      var again := Evaluate(done.session, now);
      && again == Move(done.session, [])
      && Resting(done.session, now)
      && GoodMove(s, done, now, now)
  {
    hide RowsOk, StatusOk, Posts, InOrder, EvaluateFrom, Apply, SamePlan;
    VerbKeeps(s, v, now);
    InvHasShape(s, now);
    VerbPosts(s, v, now);
    if !IsStopwatch(s) {
      VerbAt(s, v, now);
      AtIsInOrder(Apply(s, v, now).value.steps, now, now, now);
    }
  }

  lemma MovesThen(s: Session, m1: Move, m2: Move, c: Instant, mid: Instant, now: Instant)
    requires GoodMove(s, m1, c, mid) && GoodMove(m1.session, m2, mid, now) && c <= mid <= now
    ensures GoodMove(s, Move(m2.session, m1.steps + m2.steps), c, now)
  {
    hide RowsOk, StatusOk, Posts, InOrder;
    PostsThen(s, m1, m2);
    if !IsStopwatch(s) { InOrderThen(m1.steps, m2.steps, c, mid, now); }
  }

  lemma TransactGood(s: Session, c: Instant, call: Call)
    requires Resting(s, c) && c <= call.now
    ensures GoodMove(s, Transact(s, call), c, call.now)
    ensures if Commits(s, call) then Resting(Transact(s, call).session, call.now)
            else Transact(s, call) == Move(s, [])
  {
    hide RowsOk, StatusOk, Posts, InOrder, EvaluateFrom, Apply, SamePlan, Quiet;
    Evaluated(s, c, call.now);
    StayGood(s, c, call.now);
    if call.request.Act? && s.status.Running? && !Misplaced(s, call.request.verb) {
      var m := Evaluate(s, call.now);
      if m.session.status.Running? && Apply(m.session, call.request.verb, call.now).Some? {
        VerbMove(m.session, call.request.verb, call.now);
        var done := Apply(m.session, call.request.verb, call.now).value;
        MovesThen(s, m, done, c, call.now, call.now);
        assert [] + done.steps == done.steps;
      }
    }
  }

  lemma StayGood(s: Session, c: Instant, now: Instant)
    requires Inv(s, c) && c <= now
    ensures GoodMove(s, Move(s, []), c, now)
  {
    hide RowsOk, StatusOk;
    InvLater(s, c, now);
    StayPosts(s);
  }

  /** Every run keeps the invariant, posts each transition once, and posts it in order. */
  lemma {:induction false} RunGood(s: Session, c: Instant, calls: seq<Call>, end: Instant)
    requires Resting(s, c) && Clocked(calls, c) && c <= end
    requires forall i :: 0 <= i < |calls| ==> calls[i].now <= end
    ensures GoodMove(s, Run(s, calls), c, end)
    decreases |calls|
  {
    hide RowsOk, StatusOk, Posts, InOrder, Transact, SamePlan, Quiet, Commits;
    if |calls| == 0 {
      StayGood(s, c, end);
    } else {
      var call, rest := calls[0], calls[1..];
      TransactGood(s, c, call);
      var m := Transact(s, call);
      if Commits(s, call) {
        RunGood(m.session, call.now, rest, end);
        MovesThen(s, m, Run(m.session, rest), c, call.now, end);
      } else {
        RunGood(s, c, rest, end);
        assert [] + Run(s, rest).steps == Run(s, rest).steps;
      }
    }
  }
}
