/** Requests as the service runs them: evaluate, persist, verb, persist, with dedupe on
    the ledger id. */
module SessionService {
  import opened Basics
  import opened SessionTypes
  import opened SessionEngine
  import opened SessionVerbs
  import opened SessionShape
  import opened SessionRuns
  import opened SessionTheorems
  import opened SessionObjects

  /** Rows are added in order; an id already on the ledger is skipped. */
  function PersistAll(rows: seq<EventId>, ids: seq<EventId>): seq<EventId>
    decreases |ids|
  {
    if |ids| == 0 then rows
    else PersistAll(if ids[0] in rows then rows else rows + [ids[0]], ids[1..])
  }

  lemma PersistAllSplit(rows: seq<EventId>, a: seq<EventId>, b: seq<EventId>)
    ensures PersistAll(rows, a + b) == PersistAll(PersistAll(rows, a), b)
    decreases |a|
  {
    if |a| == 0 {
      assert a + b == b;
    } else {
      assert (a + b)[1..] == a[1..] + b;
      PersistAllSplit(if a[0] in rows then rows else rows + [a[0]], a[1..], b);
    }
  }

  ghost predicate AllDistinct(ids: seq<EventId>) { forall i, j :: 0 <= i < j < |ids| ==> ids[i] != ids[j] }

  /** Fresh, distinct ids are all written. */
  lemma {:induction false} PersistFresh(rows: seq<EventId>, ids: seq<EventId>)
    requires AllDistinct(rows + ids)
    ensures PersistAll(rows, ids) == rows + ids
    decreases |ids|
  {
    if |ids| == 0 {
      assert rows + ids == rows;
    } else {
      assert (rows + ids)[|rows|] == ids[0];
      assert forall i :: 0 <= i < |rows| ==> (rows + ids)[i] == rows[i];
      assert rows + ids == (rows + [ids[0]]) + ids[1..];
      PersistFresh(rows + [ids[0]], ids[1..]);
    }
  }

  class Ledger {
    var rows: seq<EventId>

    constructor ()
      ensures rows == []
    {
      rows := [];
    }

    /** One evaluation's steps, in order. */
    method Persist(steps: seq<Step>)
      modifies this
      ensures rows == PersistAll(old(rows), BatchIds(steps))
    {
      ghost var ids := BatchIds(steps);
      for i := 0 to |steps|
        invariant rows == PersistAll(old(rows), ids[..i])
      {
        var id := IdOf(steps[i], i);
        PersistAllSplit(old(rows), ids[..i], [id]);
        assert ids[..i + 1] == ids[..i] + [id];
        if id !in rows {
          rows := rows + [id];
        }
      }
      assert ids[..|steps|] == ids;
    }
  }

  /** The verb of one request; None is a refusal. */
  method ApplyVerb(session: FocusSession, verb: Verb, now: Instant) returns (steps: Option<seq<Step>>)
    requires session.Valid()
    modifies session, session.phases
    ensures
      match Apply(old(session.View()), verb, now)
      case None => steps == None && session.View() == old(session.View())
      case Some(m) => steps == Some(m.steps) && session.View() == m.session
  {
    hide Pause, Resume, Advance, Stop, Done;
    match verb
    case DoPause => steps := session.Pause(now);
    case DoResume => steps := session.Resume(now);
    case DoAdvance => steps := session.Advance(now);
    case DoStop =>
      var stopped := session.Stop(now);
      steps := Some(stopped);
    case DoFinish(prior) => steps := session.Done(now, prior);
  }

  /** One locked transaction; false is an error after which the caller rolls back. */
  method Action(session: FocusSession, ledger: Ledger, verb: Verb, now: Instant) returns (ok: bool)
    requires session.Valid()
    modifies session, session.phases, ledger
    ensures ok ==> session.View() == Transact(old(session.View()), Call(Act(verb), now)).session
    ensures ok ==> ledger.rows == PersistAll(old(ledger.rows), CallIds(old(session.View()), Call(Act(verb), now)))
    ensures !ok ==> Transact(old(session.View()), Call(Act(verb), now)) == Move(old(session.View()), [])
    ensures !ok ==> CallIds(old(session.View()), Call(Act(verb), now)) == []
  {
    hide Evaluate, Apply, PersistAll, BatchIds;
    if !session.status.Running? {
      return false;
    }
    if verb.DoFinish? && !(|session.phases| == 1 && session.phases[0].kind.Speedrun?) {
      return false;
    }
    ghost var start, rows := session.View(), ledger.rows;
    var elapsed := session.Evaluate(now);
    ledger.Persist(elapsed);
    if !session.status.Running? {
      return true;
    }
    var done := ApplyVerb(session, verb, now);
    if done.None? {
      return false;
    }
    var again := session.Evaluate(now);
    PersistAllSplit(rows, BatchIds(elapsed), BatchIds(again + done.value));
    ledger.Persist(again + done.value);
    return true;
  }

  /** The ledger after a run that starts with `rows`. */
  function RunLedger(s: Session, calls: seq<Call>, rows: seq<EventId>): seq<EventId>
    decreases |calls|
  {
    if |calls| == 0 then rows
    else RunLedger(Transact(s, calls[0]).session, calls[1..], PersistAll(rows, CallIds(s, calls[0])))
  }

  lemma {:induction false} RunLedgerIs(s: Session, calls: seq<Call>, rows: seq<EventId>)
    ensures RunLedger(s, calls, rows) == PersistAll(rows, RunIds(s, calls))
    decreases |calls|
  {
    if |calls| > 0 {
      RunLedgerIs(Transact(s, calls[0]).session, calls[1..], PersistAll(rows, CallIds(s, calls[0])));
      PersistAllSplit(rows, CallIds(s, calls[0]), RunIds(Transact(s, calls[0]).session, calls[1..]));
    }
  }

  /** Exactly once: from the two rows of the start request on, the ledger holds the id of
      every transition of the run, in order; dedupe drops none, whatever the clock reads. */
  lemma LedgerIsComplete(s: Session, calls: seq<Call>, at: Instant)
    requires Shape(s) && |s.phases| > 0 && !s.phases[0].status.Pending?
    ensures
      var rows := [IdOf(Step(SessionStarted, None, at), 0), IdOf(Step(PhaseStarted, Some(0), at), 1)];
      RunLedger(s, calls, rows) == rows + RunIds(s, calls) && |RunIds(s, calls)| == |Run(s, calls).steps|
  {
    hide Run, RunIds, Shape, PersistAll, RunLedger;
    var rows := [IdOf(Step(SessionStarted, None, at), 0), IdOf(Step(PhaseStarted, Some(0), at), 1)];
    IdsDistinct(s, calls, at);
    RunIdsFor(s, calls);
    RunLedgerIs(s, calls, rows);
    assert AllDistinct(rows + RunIds(s, calls));
    PersistFresh(rows, RunIds(s, calls));
  }
}
