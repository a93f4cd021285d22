/** The sweep as a protocol: any number of sweep instances and check writers take atomic steps
    over the committed rows of one daily, each working from its own, possibly stale, reads.
    Writers of the daily and its marks hold the owner's profile lock, and so does an instance
    from its re-reads to its commit. */
module SweepProtocol {
  import opened Basics
  import opened Economy
  import opened Recurrence
  import opened SweepTxns
  import C = Checks
  import Career

  const GRACE_HOURS := 3
  const LOOKBACK_DAYS := 35

  /** The unit's day is over and the grace has passed; `now` counts seconds from day 0. */
  predicate EvalDue(unit: Day, now: int) { now >= unit * DAY + DAY + GRACE_HOURS * HOUR }

  function Today(now: int): Day { now / DAY }

  /** The newest day that is due. */
  function LastDue(now: int): Day { (now - GRACE_HOURS * HOUR) / DAY - 1 }

  lemma DueUpTo(unit: Day, now: int)
    ensures EvalDue(unit, now) <==> unit <= LastDue(now)
  {}

  function WindowStart(d: C.Daily, now: int): Day { Max(d.anchor, Today(now) - LOOKBACK_DAYS) }

  /** The due units one evaluation goes through. */
  ghost function DueUnits(d: C.Daily, now: int): seq<Day>
    requires d.rule.Some? && Parsed(d.rule.value)
  {
    Units(d.rule.value, d.anchor, WindowStart(d, now), LastDue(now))
  }

  // --- The verdict as the code computes it -----------------------------------------------------

  /** The earliest miss row the verdict reads. */
  ghost function ReadFrom(d: C.Daily, unit: Day): Day
    requires d.rule.Some? && Parsed(d.rule.value)
  {
    var priors := Priors(d, unit);
    if |priors| > 0 then priors[|priors| - 1] else unit
  }

  function RowsFrom(misses: map<Day, bool>, since: Day): map<Day, bool> {
    map m | m in misses && m >= since :: misses[m]
  }

  /** `missed` is what the instance remembers, `rows` what it reads under the lock, its own
      uncommitted row included. */
  ghost predicate Verdict(d: C.Daily, unit: Day, missed: set<Day>, rows: map<Day, bool>)
    requires d.rule.Some? && Parsed(d.rule.value)
  {
    && !(exists u :: u in Priors(d, unit) && u in missed + rows.Keys)
    && !(exists m :: m in rows && rows[m] && unit in Priors(d, m))
  }

  /** As long as what it remembers is committed, the verdict is a function of committed rows
      alone: neither the stale snapshot nor the bounded read changes it. */
  lemma VerdictFromCommitted(d: C.Daily, unit: Day, missed: set<Day>)
    requires d.rule.Some? && Parsed(d.rule.value) && missed <= d.misses.Keys
    ensures Verdict(d, unit, missed, RowsFrom(d.misses[unit := false], ReadFrom(d, unit))) <==> Absorbed(d, unit)
  {
    var since := ReadFrom(d, unit);
    var rows := RowsFrom(d.misses[unit := false], since);
    var priors := Priors(d, unit);
    NotItsOwnPrior(d, unit);
    if |priors| > 0 { assert priors[|priors| - 1] in priors; }
    forall u | u in priors ensures since <= u < unit {
      var i :| 0 <= i < |priors| && priors[i] == u;
    }
    forall u | u in priors ensures u in missed + rows.Keys <==> u in d.misses {}
    forall m | m in d.misses && m != unit && unit in Priors(d, m) ensures m in rows && rows[m] == d.misses[m] {
      assert unit < m;
    }
    if unit in d.misses { assert unit !in Priors(d, unit); }
  }

  /** The days the satisfaction test re-reads: the unit's own week, or its own day. */
  ghost function DoneFrom(d: C.Daily, unit: Day): Day {
    if d.rule.Some? && d.rule.value.TimesPerWeek? then unit - 6 else unit
  }

  function DoneIn(marks: map<Day, C.Marks>, start: Day, end: Day): set<Day> {
    set day | day in marks && start <= day <= end && C.IsDone(marks[day], C.Whole)
  }

  /** The bounded re-read decides satisfaction like the full history. */
  lemma BoundedReadDecides(d: C.Daily, unit: Day)
    requires d.rule.Some? && Parsed(d.rule.value)
    ensures UnitSatisfied(d.rule.value, unit, DoneIn(d.marks, DoneFrom(d, unit), unit), d.anchor) <==> Satisfied(d, unit)
  {
    var rec := d.rule.value;
    if rec.TimesPerWeek? {
      var near, all := DoneIn(d.marks, unit - 6, unit), DoneDays(d.marks);
      assert (set x | x in near && unit - 6 <= x <= unit && x >= EffectiveAnchor(rec, d.anchor))
          == (set x | x in all && unit - 6 <= x <= unit && x >= EffectiveAnchor(rec, d.anchor));
    }
  }

  // --- Actors --------------------------------------------------------------------------------

  /** One instance or writer. `units` are still to be evaluated, the claimed one first;
      `missed` and `done` are the instance's own sets. */
  datatype Actor =
    | Idle
    | Started(units: seq<Day>, missSince: Day, done: set<Day>)
    | Sweeping(units: seq<Day>, missed: set<Day>, done: set<Day>)
    | RolledBack(units: seq<Day>, missed: set<Day>, done: set<Day>)
    | Claimed(units: seq<Day>, missed: set<Day>, done: set<Day>)
    | Locked(units: seq<Day>, missed: set<Day>, done: set<Day>, profile: Profile)
    | Reread(units: seq<Day>, missed: set<Day>, done: set<Day>, profile: Profile, daily: C.Daily)
    | RereadRows(units: seq<Day>, missed: set<Day>, done: set<Day>, profile: Profile, daily: C.Daily,
                  marks: map<Day, C.Marks>, misses: map<Day, bool>)
    | WriterLocked(profile: Profile)
    | WriterRead(profile: Profile, daily: C.Daily)

  predicate HoldsLock(a: Actor) {
    a.Locked? || a.Reread? || a.RereadRows? || a.WriterLocked? || a.WriterRead?
  }

  predicate HasClaim(a: Actor) { a.Claimed? || a.Locked? || a.Reread? || a.RereadRows? }

  predicate HasUnits(a: Actor) { a.Started? || a.Sweeping? || a.RolledBack? || HasClaim(a) }

  predicate HasMissed(a: Actor) { a.Sweeping? || a.RolledBack? || HasClaim(a) }

  predicate Claims(a: Actor, unit: Day) { HasClaim(a) && |a.units| > 0 && a.units[0] == unit }

  /** The committed rows, the actors, and the transactions committed so far. */
  datatype World = World(db: Db, actors: seq<Actor>, log: seq<Txn>)

  predicate LockFree(w: World) { forall a :: a in w.actors ==> !HoldsLock(a) }

  predicate Unclaimed(w: World, unit: Day) { forall a :: a in w.actors ==> !Claims(a, unit) }

  // --- The invariant ----------------------------------------------------------------------------

  /** What an actor knows is right: its units are scheduled, the misses it remembers are
      committed, its claim is not yet charged, and what it read under the lock is current. */
  ghost predicate ActorOk(db: Db, a: Actor)
    requires db.Scheduled()
  {
    && (HasUnits(a) ==> forall u :: u in a.units ==> IsUnit(db.daily.rule.value, db.daily.anchor, u))
    && (HasMissed(a) ==> a.missed <= db.daily.misses.Keys)
    && (HasClaim(a) ==> |a.units| > 0 && a.units[0] !in db.daily.misses)
    && (HoldsLock(a) ==> a.profile == db.profile)
    && (a.Reread? || a.RereadRows? || a.WriterRead? ==> a.daily == db.daily)
    && (a.RereadRows? ==> a.marks == db.daily.marks && a.misses == db.daily.misses)
  }

  /** At most one lock holder, at most one claim per unit. */
  ghost predicate Exclusive(actors: seq<Actor>) {
    && (forall i, j :: 0 <= i < j < |actors| ==> !(HoldsLock(actors[i]) && HoldsLock(actors[j])))
    && (forall i, j :: 0 <= i < j < |actors| && HasClaim(actors[i]) && HasClaim(actors[j]) ==>
          |actors[i].units| > 0 && |actors[j].units| > 0 && actors[i].units[0] != actors[j].units[0])
  }

  ghost predicate WorldOk(w: World) {
    && w.db.Scheduled()
    && (forall a :: a in w.actors ==> ActorOk(w.db, a))
    && Exclusive(w.actors)
  }

  // --- Steps -----------------------------------------------------------------------------------

  datatype Write =
    | WriteCheck(req: C.Request, draw: C.Draw)
    | WriteEdit(active: bool, difficulty: Option<real>)
    | WriteItems(items: set<int>)
    | WriteScore(deed: Career.Deed, wall: Day)

  datatype Step =
    | Begin(now: int)
    | ReadMisses
    | Skip
    | Finish
    | Claim
    | Reload
    | Lock
    | RereadDaily
    | ReadRows
    | Decide(draw: C.Draw)
    | Crash
    | LockToWrite
    | ReadToWrite
    | Commit(write: Write)

  /** The schedule of a daily is fixed for the run. */
  predicate SameSchedule(d: C.Daily, e: C.Daily) { d.rule == e.rule && d.anchor == e.anchor }

  ghost predicate Skips(d: C.Daily, a: Actor)
    requires d.rule.Some? && Parsed(d.rule.value)
    requires a.Sweeping? && |a.units| > 0
  {
    a.units[0] in a.missed || UnitSatisfied(d.rule.value, a.units[0], a.done, d.anchor)
  }

  ghost predicate Enabled(w: World, i: nat, step: Step)
    requires w.db.Scheduled() && i < |w.actors|
  {
    var a := w.actors[i];
    match step
    case Begin(_) => a.Idle? && w.db.daily.active
    case ReadMisses => a.Started?
    case Skip => a.Sweeping? && |a.units| > 0 && Skips(w.db.daily, a)
    case Finish => a.Sweeping? && |a.units| == 0
    // A unique insert waits for a rival's uncommitted row.
    case Claim => a.Sweeping? && |a.units| > 0 && !Skips(w.db.daily, a) && Unclaimed(w, a.units[0])
    case Reload => a.RolledBack?
    case Lock => a.Claimed? && LockFree(w)
    case RereadDaily => a.Locked?
    case ReadRows => a.Reread?
    case Decide(_) => a.RereadRows? && |a.units| > 0 && SameSchedule(a.daily, w.db.daily)
    case Crash => true
    case LockToWrite => a.Idle? && LockFree(w)
    case ReadToWrite => a.WriterLocked?
    case Commit(_) => a.WriterRead? && SameSchedule(a.daily, w.db.daily)
  }

  /** What a step leaves of its actor, the committed rows and the log. */
  datatype Move = Move(actor: Actor, db: Db, log: seq<Txn>)

  ghost function MissSince(d: C.Daily, units: seq<Day>, start: Day): Day
    requires d.rule.Some? && Parsed(d.rule.value)
    decreases |units|
  {
    if units == [] then start
    else
      var priors := Priors(d, units[0]);
      MissSince(d, units[1..], if |priors| > 0 then Min(start, priors[|priors| - 1]) else start)
  }

  /** Scoring and committing the claimed unit, or rolling it back. Everything written is
      computed from what the actor read. */
  ghost function Decision(db: Db, log: seq<Txn>, a: Actor, draw: C.Draw, rates: Rates): Move
    requires rates.Loaded() && db.Scheduled()
    requires a.RereadRows? && |a.units| > 0 && SameSchedule(a.daily, db.daily)
  {
    var unit, rest := a.units[0], a.units[1..];
    var doneNow := DoneIn(a.marks, DoneFrom(a.daily, unit), unit);
    if !a.daily.active then Move(RolledBack(rest, a.missed, a.done), db, log)
    else if UnitSatisfied(a.daily.rule.value, unit, doneNow, a.daily.anchor) then
      Move(RolledBack(rest, a.missed, a.done + doneNow), db, log)
    else
      var rows := RowsFrom(a.misses[unit := false], ReadFrom(a.daily, unit));
      var frozen := Verdict(a.daily, unit, a.missed, rows);
      var hurt := Score(a.profile, DailyMissed(a.daily.difficulty), rates, draw.roll, draw.pick, draw.today, draw.gear);
      if hurt.None? then Move(Idle, db, log)
      else
        var streak := if frozen then a.daily.streak else 0;
        var daily := db.daily.(misses := db.daily.misses[unit := frozen], streak := streak);
        Move(Sweeping(rest, a.missed + {unit}, a.done),
             Db(daily, hurt.value, db.events + [MissEvent(unit, frozen, a.daily.streak, streak)]),
             log + [MissUnit(unit, draw)])
  }

  /** A writer commits the columns it computed from its own reads. */
  ghost function Written(db: Db, log: seq<Txn>, a: Actor, write: Write, rates: Rates): Move
    requires rates.Loaded() && db.Scheduled() && a.WriterRead? && SameSchedule(a.daily, db.daily)
  {
    match write
    case WriteCheck(req, draw) =>
      var outcome := C.ScoreCheck(a.daily, a.profile, req, rates, draw);
      if outcome.Refused? then Move(Idle, db, log)
      else
        var daily := db.daily.(marks := outcome.daily.marks, streak := outcome.daily.streak, rows := outcome.daily.rows);
        Move(Idle, db.(daily := daily, profile := outcome.profile), log + [Check(req, draw)])
    case WriteEdit(active, difficulty) =>
      Move(Idle, db.(daily := db.daily.(active := active, difficulty := difficulty)), log + [EditDaily(active, difficulty)])
    case WriteItems(items) =>
      Move(Idle, db.(daily := db.daily.(items := items, marks := C.OnlyWhole(a.daily.marks))), log + [ReplaceItems(items)])
    case WriteScore(deed, wall) =>
      Move(Idle, db.(profile := Career.Do(a.profile, deed, rates, wall)), log + [ScoreOther(deed, wall)])
  }

  ghost function MoveOf(w: World, i: nat, step: Step, rates: Rates): Move
    requires rates.Loaded() && w.db.Scheduled() && i < |w.actors| && Enabled(w, i, step)
  {
    var a, d := w.actors[i], w.db.daily;
    match step
    case Begin(now) =>
      var units := DueUnits(d, now);
      Move(if units == [] then Idle
           else Started(units, MissSince(d, units, WindowStart(d, now)), DoneIn(d.marks, WindowStart(d, now), Today(now))),
           w.db, w.log)
    case ReadMisses => Move(Sweeping(a.units, RowsFrom(d.misses, a.missSince).Keys, a.done), w.db, w.log)
    case Skip => Move(Sweeping(a.units[1..], a.missed, a.done), w.db, w.log)
    case Finish => Move(Idle, w.db, w.log)
    case Claim =>
      Move(if a.units[0] in d.misses then RolledBack(a.units[1..], a.missed + {a.units[0]}, a.done)
           else Claimed(a.units, a.missed, a.done), w.db, w.log)
    case Reload => Move(if d.active then Sweeping(a.units, a.missed, a.done) else Idle, w.db, w.log)
    case Lock => Move(Locked(a.units, a.missed, a.done, w.db.profile), w.db, w.log)
    case RereadDaily => Move(Reread(a.units, a.missed, a.done, a.profile, d), w.db, w.log)
    case ReadRows => Move(RereadRows(a.units, a.missed, a.done, a.profile, a.daily, d.marks, d.misses), w.db, w.log)
    case Decide(draw) => Decision(w.db, w.log, a, draw, rates)
    case Crash => Move(Idle, w.db, w.log)
    case LockToWrite => Move(WriterLocked(w.db.profile), w.db, w.log)
    case ReadToWrite => Move(WriterRead(a.profile, d), w.db, w.log)
    case Commit(write) => Written(w.db, w.log, a, write, rates)
  }

  ghost function Take(w: World, i: nat, step: Step, rates: Rates): (next: World)
    requires rates.Loaded() && w.db.Scheduled() && i < |w.actors| && Enabled(w, i, step)
    ensures next.db.Scheduled() && SameSchedule(next.db.daily, w.db.daily)
  {
    var m := MoveOf(w, i, step, rates);
    World(m.db, w.actors[i := m.actor], m.log)
  }

  // --- One step ----------------------------------------------------------------------------------

  /** What a step may do to the committed rows: nothing, or one legal transaction of the lock
      holder, applied to the rows as they stand. */
  ghost predicate Commits(w: World, a: Actor, m: Move, rates: Rates)
    requires rates.Loaded() && w.db.Scheduled()
  {
    (m.db == w.db && m.log == w.log) ||
    (&& HoldsLock(a) && |m.log| > |w.log| && m.log == w.log + [m.log[|w.log|]]
     && Legal(w.db, m.log[|w.log|])
     && m.db == Apply(w.db, m.log[|w.log|], rates)
     && (m.log[|w.log|].MissUnit? ==> Claims(a, m.log[|w.log|].unit)))
  }

  lemma DecisionLaw(w: World, a: Actor, draw: C.Draw, rates: Rates)
    requires rates.Loaded() && w.db.Scheduled() && ActorOk(w.db, a) && a.RereadRows?
    ensures
      var m := Decision(w.db, w.log, a, draw, rates);
      && Commits(w, a, m, rates)
      && ActorOk(m.db, m.actor) && !HasClaim(m.actor) && !HoldsLock(m.actor)
  {
    hide Score, UnitSatisfied, Absorbed, Verdict, RowsFrom, DoneIn, IsUnit, ReadFrom;
    var unit := a.units[0];
    assert unit in a.units;
    BoundedReadDecides(w.db.daily, unit);
    VerdictFromCommitted(w.db.daily, unit, a.missed);
    NoScoreUnlessRated(a.profile, w.db.daily.difficulty, rates, draw);
    assert forall u :: u in a.units[1..] ==> u in a.units;
  }

  lemma NoScoreUnlessRated(p: Profile, difficulty: Option<real>, rates: Rates, draw: C.Draw)
    requires rates.Loaded()
    ensures Score(p, DailyMissed(difficulty), rates, draw.roll, draw.pick, draw.today, draw.gear).Some? ==> difficulty.Some?
  {}

  lemma WrittenLaw(w: World, a: Actor, write: Write, rates: Rates)
    requires rates.Loaded() && w.db.Scheduled() && ActorOk(w.db, a) && a.WriterRead?
    ensures
      var m := Written(w.db, w.log, a, write, rates);
      && Commits(w, a, m, rates)
      && ActorOk(m.db, m.actor) && !HasClaim(m.actor) && !HoldsLock(m.actor)
  {
    hide C.ScoreCheck, Career.Do, Score;
    if write.WriteCheck? && C.ScoreCheck(a.daily, a.profile, write.req, rates, write.draw).Scored? {
      C.ScoreCheckTouches(a.daily, a.profile, write.req, rates, write.draw);
    }
  }

  lemma SweepMoveLaw(w: World, i: nat, step: Step, rates: Rates)
    requires rates.Loaded() && WorldOk(w) && i < |w.actors| && Enabled(w, i, step)
    requires !step.Decide? && !step.Commit?
    ensures
      var m := MoveOf(w, i, step, rates);
      && m.db == w.db && m.log == w.log && ActorOk(w.db, m.actor)
      && (HasClaim(m.actor) ==>
            |m.actor.units| > 0 && (Claims(w.actors[i], m.actor.units[0]) || Unclaimed(w, m.actor.units[0])))
      && (HoldsLock(m.actor) ==> HoldsLock(w.actors[i]) || LockFree(w))
  {
    hide UnitSatisfied, IsUnit, DoneIn, MissSince;
    var a := w.actors[i];
    assert a in w.actors && ActorOk(w.db, a);
    if HasUnits(a) && |a.units| > 0 {
      assert a.units[0] in a.units;
      assert forall u :: u in a.units[1..] ==> u in a.units;
    }
  }

  lemma MoveLaw(w: World, i: nat, step: Step, rates: Rates)
    requires rates.Loaded() && WorldOk(w) && i < |w.actors| && Enabled(w, i, step)
    ensures
      var m := MoveOf(w, i, step, rates);
      && Commits(w, w.actors[i], m, rates) && m.db.Scheduled() && ActorOk(m.db, m.actor)
      && (HasClaim(m.actor) ==>
            |m.actor.units| > 0 && (Claims(w.actors[i], m.actor.units[0]) || Unclaimed(w, m.actor.units[0])))
      && (HoldsLock(m.actor) ==> HoldsLock(w.actors[i]) || LockFree(w))
  {
    hide Decision, Written, ActorOk;
    assert w.actors[i] in w.actors && ActorOk(w.db, w.actors[i]);
    if step.Decide? {
      DecisionLaw(w, w.actors[i], step.draw, rates);
    } else if step.Commit? {
      WrittenLaw(w, w.actors[i], step.write, rates);
    } else {
      SweepMoveLaw(w, i, step, rates);
    }
  }

  lemma NewMisses(db: Db, txn: Txn, rates: Rates)
    requires rates.Loaded() && db.Scheduled()
    ensures db.daily.misses.Keys <= Apply(db, txn, rates).daily.misses.Keys
    ensures forall u :: u in Apply(db, txn, rates).daily.misses ==>
              u in db.daily.misses || (txn.MissUnit? && u == txn.unit)
  {
    hide C.ScoreCheck, Career.Do, Score, Absorbed;
    if txn.Check? && C.ScoreCheck(db.daily, db.profile, txn.req, rates, txn.draw).Scored? {
      C.ScoreCheckTouches(db.daily, db.profile, txn.req, rates, txn.draw);
    }
  }

  /** A commit by one actor leaves what the others know right. */
  lemma OthersOk(w: World, a: Actor, b: Actor, m: Move, rates: Rates)
    requires rates.Loaded() && w.db.Scheduled() && ActorOk(w.db, b) && Commits(w, a, m, rates)
    requires !(HoldsLock(a) && HoldsLock(b))
    requires HasClaim(a) && HasClaim(b) ==> |a.units| > 0 && |b.units| > 0 && a.units[0] != b.units[0]
    ensures m.db.Scheduled() && ActorOk(m.db, b)
  {
    hide Apply, Legal, IsUnit;
    if !(m.db == w.db && m.log == w.log) {
      NewMisses(w.db, m.log[|w.log|], rates);
      if HasClaim(b) {
        var unit: Day := b.units[0];
        assert unit !in w.db.daily.misses;
        assert m.log[|w.log|].MissUnit? ==> unit != m.log[|w.log|].unit;
        assert unit !in m.db.daily.misses;
      }
    }
  }

  lemma TakeKeeps(w: World, i: nat, step: Step, rates: Rates)
    requires rates.Loaded() && WorldOk(w) && i < |w.actors| && Enabled(w, i, step)
    ensures WorldOk(Take(w, i, step, rates))
    ensures Commits(w, w.actors[i], MoveOf(w, i, step, rates), rates)
  {
    hide MoveOf, Commits, ActorOk, HoldsLock, HasClaim, Enabled;
    var m, next := MoveOf(w, i, step, rates), Take(w, i, step, rates);
    MoveLaw(w, i, step, rates);
    forall b | b in next.actors ensures ActorOk(next.db, b) {
      var j :| 0 <= j < |next.actors| && next.actors[j] == b;
      if j != i {
        assert w.actors[j] in w.actors;
        OthersOk(w, w.actors[i], b, m, rates);
      }
    }
    ClaimsHaveUnits(w);
    StaysExclusive(w, i, m.actor);
  }

  lemma ClaimsHaveUnits(w: World)
    requires WorldOk(w)
    ensures forall b :: b in w.actors && HasClaim(b) ==> |b.units| > 0
  {
    assert forall b :: b in w.actors ==> ActorOk(w.db, b);
  }

  lemma StaysExclusive(w: World, i: nat, a: Actor)
    requires Exclusive(w.actors) && i < |w.actors|
    requires HasClaim(a) ==> |a.units| > 0 && (Claims(w.actors[i], a.units[0]) || Unclaimed(w, a.units[0]))
    requires HoldsLock(a) ==> HoldsLock(w.actors[i]) || LockFree(w)
    requires forall b :: b in w.actors && HasClaim(b) ==> |b.units| > 0
    ensures Exclusive(w.actors[i := a])
  {
    hide HoldsLock;
    var next := w.actors[i := a];
    forall j, k | 0 <= j < k < |next| ensures !(HoldsLock(next[j]) && HoldsLock(next[k])) {
      assert w.actors[j] in w.actors && w.actors[k] in w.actors;
    }
    forall j, k | 0 <= j < k < |next| && HasClaim(next[j]) && HasClaim(next[k])
      ensures |next[j].units| > 0 && |next[k].units| > 0 && next[j].units[0] != next[k].units[0]
    {
      assert w.actors[j] in w.actors && w.actors[k] in w.actors;
    }
  }

  // --- Whole runs ----------------------------------------------------------------------------------

  /** A run picks an actor and an enabled step at a time; None if it picks a disabled one. */
  ghost function RunAll(w: World, moves: seq<(nat, Step)>, rates: Rates): Option<World>
    requires rates.Loaded() && w.db.Scheduled()
    decreases |moves|
  {
    if moves == [] then Some(w)
    else if moves[0].0 < |w.actors| && Enabled(w, moves[0].0, moves[0].1) then
      RunAll(Take(w, moves[0].0, moves[0].1, rates), moves[1..], rates)
    else None
  }

  /** The committed rows are the log's transactions, each legal when it committed, applied one
      by one to the rows of the start. */
  ghost predicate Refined(start: Db, w: World, rates: Rates)
    requires rates.Loaded() && start.Scheduled()
  {
    LegalLog(start, w.log, rates) && w.db == Replay(start, w.log, rates)
  }

  lemma TakeRefines(start: Db, w: World, i: nat, step: Step, rates: Rates)
    requires rates.Loaded() && start.Scheduled() && WorldOk(w) && Refined(start, w, rates)
    requires i < |w.actors| && Enabled(w, i, step)
    ensures WorldOk(Take(w, i, step, rates)) && Refined(start, Take(w, i, step, rates), rates)
  {
    hide MoveOf, Enabled, WorldOk, Apply, Legal;
    TakeKeeps(w, i, step, rates);
    var m := MoveOf(w, i, step, rates);
    if m.log != w.log {
      ReplayExtends(start, w.log, m.log[|w.log|], rates);
    }
  }

  /** Under every interleaving of sweep instances and writers, crashes included, what is
      committed is a legal sequential history, in commit order. */
  lemma {:induction false} ConcurrentRefinesSequential(start: Db, w: World, moves: seq<(nat, Step)>, rates: Rates)
    requires rates.Loaded() && start.Scheduled() && WorldOk(w) && Refined(start, w, rates)
    requires RunAll(w, moves, rates).Some?
    ensures
      var end := RunAll(w, moves, rates).value;
      WorldOk(end) && Refined(start, end, rates)
    decreases |moves|
  {
    hide Take, Enabled, WorldOk, Refined;
    if moves != [] {
      TakeRefines(start, w, moves[0].0, moves[0].1, rates);
      ConcurrentRefinesSequential(start, Take(w, moves[0].0, moves[0].1, rates), moves[1..], rates);
    }
  }

  /** Everybody idle, nothing committed yet. */
  ghost predicate Fresh(w: World) { w.db.Scheduled() && w.log == [] && forall a :: a in w.actors ==> a.Idle? }

  lemma FreshIsOk(w: World)
    requires Fresh(w)
    ensures WorldOk(w)
  {
    assert forall i :: 0 <= i < |w.actors| ==> w.actors[i] in w.actors;
  }

  /** The sweep, whatever runs beside it: every committed miss was legal when it committed,
      miss rows and events match one to one, any seven consecutive scheduled units hold at
      most one frozen miss, and all the other rows are sound. */
  lemma SweepIsSafe(w: World, moves: seq<(nat, Step)>, rates: Rates)
    requires rates.Loaded() && Fresh(w) && Healthy(w.db, rates) && RunAll(w, moves, rates).Some?
    ensures
      var end := RunAll(w, moves, rates).value;
      && LegalLog(w.db, end.log, rates) && end.db == Replay(w.db, end.log, rates)
      && Healthy(end.db, rates)
      && forall win: seq<Day>, i, j ::
           IsWindow(end.db.daily.rule.value, end.db.daily.anchor, win) && |win| <= 7
           && 0 <= i < j < |win| && win[i] in end.db.daily.misses && win[j] in end.db.daily.misses
           ==> !(end.db.daily.misses[win[i]] && end.db.daily.misses[win[j]])
  {
    hide RunAll, Healthy;
    FreshIsOk(w);
    assert LegalLog(w.db, [], rates) && Replay(w.db, [], rates) == w.db;
    ConcurrentRefinesSequential(w.db, w, moves, rates);
    var end := RunAll(w, moves, rates).value;
    HistoriesAreHealthy(w.db, end.log, rates);
    forall win: seq<Day>, i, j |
      IsWindow(end.db.daily.rule.value, end.db.daily.anchor, win) && |win| <= 7
      && 0 <= i < j < |win| && win[i] in end.db.daily.misses && win[j] in end.db.daily.misses
      ensures !(end.db.daily.misses[win[i]] && end.db.daily.misses[win[j]])
    {
      if end.db.daily.misses[win[i]] && end.db.daily.misses[win[j]] {
        RollingFreeze(end.db, win, i, j, rates);
      }
    }
  }
}
