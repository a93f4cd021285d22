/** The daily-miss sweep as a sequence of transactions: what each commits, and what holds
    after any number of them. */
module SweepTxns {
  import opened Basics
  import opened Economy
  import opened Recurrence
  import C = Checks
  import Career

  /** A daily_missed ledger row. */
  datatype MissEvent = MissEvent(unit: Day, frozen: bool, streakBefore: nat, streakAfter: nat)

  /** The committed rows of one daily and its owner's profile. */
  datatype Db = Db(daily: C.Daily, profile: Profile, events: seq<MissEvent>)
  {
    ghost predicate Scheduled() { daily.rule.Some? && Parsed(daily.rule.value) }
  }

  /** Prior units a freeze looks back at: one freeze per rolling seven. */
  const LOOK_BACK := 6

  ghost function Priors(d: C.Daily, unit: Day): seq<Day>
    requires d.rule.Some? && Parsed(d.rule.value)
  {
    PriorUnits(d.rule.value, d.anchor, unit, LOOK_BACK)
  }

  /** Days whose whole-daily mark is done. */
  function DoneDays(marks: map<Day, C.Marks>): set<Day> { set day | day in marks && C.IsDone(marks[day], C.Whole) }

  ghost predicate Satisfied(d: C.Daily, unit: Day)
    requires d.rule.Some? && Parsed(d.rule.value)
  {
    UnitSatisfied(d.rule.value, unit, DoneDays(d.marks), d.anchor)
  }

  /** Whether a miss of `unit` is absorbed: no miss in the window behind it, and no frozen
      miss ahead whose window it sits in. */
  ghost predicate Absorbed(d: C.Daily, unit: Day)
    requires d.rule.Some? && Parsed(d.rule.value)
  {
    && (forall u :: u in Priors(d, unit) ==> u !in d.misses)
    && (forall m :: m in d.misses && d.misses[m] ==> unit !in Priors(d, m))
  }

  // --- Transactions ----------------------------------------------------------------------------

  datatype Txn =
    | MissUnit(unit: Day, draw: C.Draw)
    | Check(req: C.Request, draw: C.Draw)
    | EditDaily(active: bool, difficulty: Option<real>)
    | ReplaceItems(items: set<int>)
    | ScoreOther(deed: Career.Deed, wall: Day)

  ghost function Apply(db: Db, txn: Txn, rates: Rates): (next: Db)
    requires rates.Loaded() && db.Scheduled()
    ensures next.Scheduled() && next.daily.rule == db.daily.rule && next.daily.anchor == db.daily.anchor
  {
    var d := db.daily;
    match txn
    case MissUnit(unit, draw) =>
      var frozen := Absorbed(d, unit);
      var hurt := Score(db.profile, DailyMissed(d.difficulty), rates, draw.roll, draw.pick, draw.today, draw.gear);
      if hurt.None? then db
      else
        var next := C.Do(d, C.Miss(unit, frozen), rates);
        Db(next, hurt.value, db.events + [MissEvent(unit, frozen, d.streak, next.streak)])
    case Check(req, draw) =>
      var outcome := C.ScoreCheck(d, db.profile, req, rates, draw);
      if outcome.Refused? then db
      else db.(daily := C.Do(d, C.Check(req, db.profile, draw), rates), profile := outcome.profile)
    case EditDaily(active, difficulty) => db.(daily := C.Do(d, C.Edit(active, difficulty), rates))
    case ReplaceItems(items) => db.(daily := C.Do(d, C.ReplaceItems(items), rates))
    case ScoreOther(deed, wall) => db.(profile := Career.Do(db.profile, deed, rates, wall))
  }

  /** What a committed miss must have been: a due unit of an active daily, not yet charged and
      not satisfied at that moment. */
  ghost predicate Legal(db: Db, txn: Txn)
    requires db.Scheduled()
  {
    txn.MissUnit? ==>
      && db.daily.active && db.daily.difficulty.Some?
      && IsUnit(db.daily.rule.value, db.daily.anchor, txn.unit)
      && txn.unit !in db.daily.misses
      && !Satisfied(db.daily, txn.unit)
  }

  ghost function Replay(db: Db, log: seq<Txn>, rates: Rates): (end: Db)
    requires rates.Loaded() && db.Scheduled()
    ensures end.Scheduled() && end.daily.rule == db.daily.rule && end.daily.anchor == db.daily.anchor
    decreases |log|
  {
    if log == [] then db
    else
      var last := |log| - 1;
      Apply(Replay(db, log[..last], rates), log[last], rates)
  }

  ghost predicate LegalLog(db: Db, log: seq<Txn>, rates: Rates)
    requires rates.Loaded() && db.Scheduled()
    decreases |log|
  {
    log == [] ||
    (LegalLog(db, log[..|log| - 1], rates)
     && Legal(Replay(db, log[..|log| - 1], rates), log[|log| - 1]))
  }

  lemma ReplayExtends(db: Db, log: seq<Txn>, txn: Txn, rates: Rates)
    requires rates.Loaded() && db.Scheduled()
    ensures Replay(db, log + [txn], rates) == Apply(Replay(db, log, rates), txn, rates)
    ensures LegalLog(db, log + [txn], rates) <==> LegalLog(db, log, rates) && Legal(Replay(db, log, rates), txn)
  {
    assert (log + [txn])[..|log|] == log;
  }

  // --- What every legal history keeps --------------------------------------------------------

  /** No frozen miss sits in the look-back window of another. */
  ghost predicate FreezesApart(d: C.Daily)
    requires d.rule.Some? && Parsed(d.rule.value)
  {
    forall a, b :: a in d.misses && d.misses[a] && b in d.misses && d.misses[b] ==> a !in Priors(d, b)
  }

  ghost predicate MissesAreUnits(d: C.Daily)
    requires d.rule.Some? && Parsed(d.rule.value)
  {
    forall u :: u in d.misses ==> IsUnit(d.rule.value, d.anchor, u)
  }

  /** Miss rows and miss events match one to one, verdict included. */
  ghost predicate Matched(db: Db) {
    && (forall i, j :: 0 <= i < j < |db.events| ==> db.events[i].unit != db.events[j].unit)
    && (forall i :: 0 <= i < |db.events| ==>
          db.events[i].unit in db.daily.misses && db.daily.misses[db.events[i].unit] == db.events[i].frozen)
    && (forall u :: u in db.daily.misses ==> exists i :: 0 <= i < |db.events| && db.events[i].unit == u)
  }

  /** Each event tells what its verdict did to the streak. */
  ghost predicate Verdicts(events: seq<MissEvent>) {
    forall i :: 0 <= i < |events| ==>
      events[i].streakAfter == if events[i].frozen then events[i].streakBefore else 0
  }

  ghost predicate Healthy(db: Db, rates: Rates)
    requires rates.Loaded()
  {
    && db.Scheduled()
    && FreezesApart(db.daily) && MissesAreUnits(db.daily) && Matched(db) && Verdicts(db.events)
    && C.MarksFit(db.daily) && (forall x :: C.WithinOne(db.daily, x))
    && Career.Sound(db.profile, rates)
  }

  /** Where every history starts: a daily nobody has checked or missed yet. */
  lemma NewDailyIsHealthy(db: Db, rates: Rates)
    requires rates.Loaded() && db.Scheduled() && Career.Sound(db.profile, rates)
    requires db.daily.marks == map[] && db.daily.misses == map[] && db.daily.rows == [] && db.events == []
    ensures Healthy(db, rates)
  {}

  lemma MissSound(p: Profile, difficulty: real, rates: Rates, draw: C.Draw)
    requires rates.Loaded() && Career.Sound(p, rates)
    ensures
      var hurt := Score(p, DailyMissed(Some(difficulty)), rates, draw.roll, draw.pick, draw.today, draw.gear);
      hurt.Some? && Career.Sound(hurt.value, rates)
  {
    var effect := Career.ScoreLands(p, DailyMissed(Some(difficulty)), rates, draw.roll, draw.pick, draw.today, draw.gear);
    Career.LandLaw(p, effect, rates, draw.pick, draw.today, draw.gear);
  }

  lemma CheckSound(d: C.Daily, p: Profile, req: C.Request, rates: Rates, draw: C.Draw)
    requires rates.Loaded() && Career.Sound(p, rates) && d.Parsable()
    requires C.ScoreCheck(d, p, req, rates, draw).Scored?
    ensures Career.Sound(C.ScoreCheck(d, p, req, rates, draw).profile, rates)
  {
    hide Score, C.Transition, C.Credits, C.Screen, C.PaidTotals;
    C.ItemsMeanSize(d, req, draw.today);
    var m := C.Transition(C.MarksOn(d, req.date), |d.items|, req.slot, C.Wanted(req.claim));
    if m.reason.None? && !m.uncheck {
      var moved := d.(marks := d.marks[req.date := m.marks],
                      streak := if C.Credits(d, m.first, req.date) then d.streak + 1 else d.streak);
      ShareSound(moved, p, m.share, req.date, rates, draw);
    }
  }

  lemma ShareSound(d: C.Daily, p: Profile, share: real, date: Day, rates: Rates, draw: C.Draw)
    requires rates.Loaded() && Career.Sound(p, rates)
    requires C.ApplyShare(d, p, share, date, rates, draw).Scored?
    ensures Career.Sound(C.ApplyShare(d, p, share, date, rates, draw).profile, rates)
  {
    hide Score, C.PaidTotals, Career.Sound, Career.Land;
    var paid := C.PaidTotals(d.rows, date);
    var part := Economy.ClampShare(share, paid.share);
    if part > 0.0 {
      var ev := DailyCheck(part, d.streak, paid.share, paid.xp as real, paid.gold, d.difficulty);
      var effect := Career.ScoreLands(p, ev, rates, draw.roll, draw.pick, draw.today, draw.gear);
      Career.LandLaw(p, effect, rates, draw.pick, draw.today, draw.gear);
    }
  }

  /** Recording a miss keeps the rows, the verdicts and the freezes in order. */
  lemma MissKeeps(db: Db, unit: Day, draw: C.Draw, rates: Rates)
    requires rates.Loaded() && Healthy(db, rates) && Legal(db, MissUnit(unit, draw))
    ensures Healthy(Apply(db, MissUnit(unit, draw), rates), rates)
  {
    hide Score, C.ScoreCheck, C.MarksFit, C.WithinOne, Career.Sound;
    var next := Apply(db, MissUnit(unit, draw), rates);
    MissSound(db.profile, db.daily.difficulty.value, rates, draw);
    C.DoKeeps(db.daily, C.Miss(unit, Absorbed(db.daily, unit)), unit, rates);
    SameDay(db, next, unit, draw, rates);
  }

  lemma SameDay(db: Db, next: Db, unit: Day, draw: C.Draw, rates: Rates)
    requires rates.Loaded() && Healthy(db, rates) && Legal(db, MissUnit(unit, draw))
    requires next == Apply(db, MissUnit(unit, draw), rates)
    requires Score(db.profile, DailyMissed(db.daily.difficulty), rates, draw.roll, draw.pick, draw.today, draw.gear).Some?
    ensures FreezesApart(next.daily) && MissesAreUnits(next.daily) && Matched(next) && Verdicts(next.events)
  {
    hide Score, C.ScoreCheck, C.MarksFit, C.WithinOne, Career.Sound, Satisfied, Absorbed, FreezesApart, MissesAreUnits,
      Matched, Verdicts;
    var frozen := Absorbed(db.daily, unit);
    FreezeAdded(db.daily, next.daily, unit, frozen);
    RowAdded(db, next, unit, frozen);
  }

  /** Adding a verdict that the misses on record allow keeps the freezes apart. */
  lemma FreezeAdded(d: C.Daily, next: C.Daily, unit: Day, frozen: bool)
    requires d.rule.Some? && Parsed(d.rule.value) && next.rule == d.rule && next.anchor == d.anchor
    requires FreezesApart(d) && MissesAreUnits(d) && IsUnit(d.rule.value, d.anchor, unit)
    requires next.misses == d.misses[unit := frozen] && (frozen ==> Absorbed(d, unit)) && unit !in d.misses
    ensures FreezesApart(next) && MissesAreUnits(next)
  {
    hide PriorUnits, IsPriorUnits, IsUnit;
    NotItsOwnPrior(d, unit);
    assert forall u :: Priors(next, u) == Priors(d, u);
  }

  /** One more row with one more event. */
  lemma RowAdded(db: Db, next: Db, unit: Day, frozen: bool)
    requires Matched(db) && Verdicts(db.events) && unit !in db.daily.misses
    requires next.daily.misses == db.daily.misses[unit := frozen]
    requires next.events == db.events + [MissEvent(unit, frozen, db.daily.streak, next.daily.streak)]
    requires next.daily.streak == if frozen then db.daily.streak else 0
    ensures Matched(next) && Verdicts(next.events)
  {
    forall u | u in next.daily.misses ensures exists i :: 0 <= i < |next.events| && next.events[i].unit == u {
      if u == unit {
        assert next.events[|db.events|].unit == u;
      } else {
        var i :| 0 <= i < |db.events| && db.events[i].unit == u;
        assert next.events[i].unit == u;
      }
    }
  }

  lemma NotItsOwnPrior(d: C.Daily, unit: Day)
    requires d.rule.Some? && Parsed(d.rule.value)
    ensures unit !in Priors(d, unit)
  {}

  /** A transaction that is not a miss leaves the miss rows and events alone. */
  lemma OtherTxnsKeep(db: Db, txn: Txn, rates: Rates)
    requires rates.Loaded() && Healthy(db, rates) && !txn.MissUnit?
    ensures Healthy(Apply(db, txn, rates), rates)
    ensures Apply(db, txn, rates).daily.misses == db.daily.misses && Apply(db, txn, rates).events == db.events
  {
    hide C.ScoreCheck, C.MarksFit, C.WithinOne, Career.Sound, PriorUnits, Career.Do;
    var next := Apply(db, txn, rates);
    match txn {
      case Check(req, draw) =>
        C.DoKeeps(db.daily, C.Check(req, db.profile, draw), req.date, rates);
        MissesStay(db.daily, C.Check(req, db.profile, draw), rates);
        if C.ScoreCheck(db.daily, db.profile, req, rates, draw).Scored? {
          CheckSound(db.daily, db.profile, req, rates, draw);
        }
      case EditDaily(active, difficulty) => C.DoKeeps(db.daily, C.Edit(active, difficulty), 0, rates);
      case ReplaceItems(items) => C.DoKeeps(db.daily, C.ReplaceItems(items), 0, rates);
      case ScoreOther(deed, wall) => Career.DoLaw(db.profile, Career.Turn(deed, wall), rates);
    }
    KeptRows(db, next);
  }

  lemma MissesStay(d: C.Daily, deed: C.Deed, rates: Rates)
    requires rates.Loaded() && d.Parsable() && deed.Check?
    ensures C.Do(d, deed, rates).misses == d.misses
  {
    hide C.Transition, C.Screen, Score, C.Credits;
  }

  lemma KeptRows(db: Db, next: Db)
    requires db.Scheduled() && next.daily.rule == db.daily.rule && next.daily.anchor == db.daily.anchor
    requires next.daily.misses == db.daily.misses && next.events == db.events
    requires FreezesApart(db.daily) && MissesAreUnits(db.daily) && Matched(db) && Verdicts(db.events)
    ensures FreezesApart(next.daily) && MissesAreUnits(next.daily) && Matched(next) && Verdicts(next.events)
  {
    hide PriorUnits, IsPriorUnits, IsUnit;
  }

  /** Every legal history of misses, checks and edits ends healthy: exactly-once misses,
      freezes kept apart, no day paid twice, a sound profile. */
  lemma {:induction false} HistoriesAreHealthy(db: Db, log: seq<Txn>, rates: Rates)
    requires rates.Loaded() && Healthy(db, rates) && LegalLog(db, log, rates)
    ensures Healthy(Replay(db, log, rates), rates)
    decreases |log|
  {
    hide Apply, Healthy, Legal;
    if log != [] {
      var before := log[..|log| - 1];
      HistoriesAreHealthy(db, before, rates);
      StaysHealthy(Replay(db, before, rates), log[|log| - 1], rates);
    }
  }

  lemma StaysHealthy(db: Db, txn: Txn, rates: Rates)
    requires rates.Loaded() && Healthy(db, rates) && Legal(db, txn)
    ensures Healthy(Apply(db, txn, rates), rates)
    ensures forall u :: u in db.daily.misses ==> u in Apply(db, txn, rates).daily.misses
  {
    hide Healthy, C.ScoreCheck, Career.Do, Score, Absorbed;
    if txn.MissUnit? {
      MissKeeps(db, txn.unit, txn.draw, rates);
    } else {
      OtherTxnsKeep(db, txn, rates);
    }
  }

  // --- Rolling freeze safety -----------------------------------------------------------------

  /** Any seven consecutive scheduled units hold at most one frozen miss, in whatever order
      their misses were committed. */
  lemma RollingFreeze(db: Db, w: seq<Day>, i: nat, j: nat, rates: Rates)
    requires rates.Loaded() && Healthy(db, rates)
    requires IsWindow(db.daily.rule.value, db.daily.anchor, w) && |w| <= LOOK_BACK + 1
    requires i < |w| && w[i] in db.daily.misses && db.daily.misses[w[i]]
    requires j < |w| && w[j] in db.daily.misses && db.daily.misses[w[j]]
    ensures i == j
  {
    hide Matched, Verdicts, C.MarksFit, C.WithinOne, Career.Sound;
    if i < j { WindowIsPrior(db.daily.rule.value, db.daily.anchor, w, i, j, LOOK_BACK); }
    if j < i { WindowIsPrior(db.daily.rule.value, db.daily.anchor, w, j, i, LOOK_BACK); }
  }

  // --- Checks after a miss --------------------------------------------------------------------

  lemma {:induction false} MissesLast(db: Db, log: seq<Txn>, k: nat, rates: Rates)
    requires rates.Loaded() && Healthy(db, rates) && LegalLog(db, log, rates) && k <= |log|
    ensures LegalLog(db, log[..k], rates)
    ensures forall u :: u in Replay(db, log[..k], rates).daily.misses ==> u in Replay(db, log, rates).daily.misses
    decreases |log|
  {
    hide Apply, Healthy, Legal;
    if k < |log| {
      var before := log[..|log| - 1];
      assert before[..k] == log[..k];
      MissesLast(db, before, k, rates);
      HistoriesAreHealthy(db, before, rates);
      StaysHealthy(Replay(db, before, rates), log[|log| - 1], rates);
    } else {
      assert log[..k] == log;
    }
  }

  /** In any legal history, a check committed after its unit's miss earns no streak day. */
  lemma NoCreditOnceMissed(db: Db, log: seq<Txn>, i: nat, j: nat, rates: Rates)
    requires rates.Loaded() && Healthy(db, rates) && LegalLog(db, log, rates)
    requires i < j < |log| && log[i].MissUnit? && log[j].Check?
    requires C.UnitOf(db.daily.rule.value, log[j].req.date) == log[i].unit
    ensures Replay(db, log[..j + 1], rates).daily.streak == Replay(db, log[..j], rates).daily.streak
  {
    hide Healthy, C.ScoreCheck, Career.Do, Score, Absorbed, C.UnitOf, Legal, Apply;
    MissesLast(db, log, j, rates);
    MissesLast(db, log, i + 1, rates);
    MissesLast(db, log[..j], i + 1, rates);
    assert log[..j][..i + 1] == log[..i + 1];
    assert log[..i + 1][..i] == log[..i] && log[..j + 1][..j] == log[..j];
    HistoriesAreHealthy(db, log[..i], rates);
    HistoriesAreHealthy(db, log[..j], rates);
    MissIsOnRecord(Replay(db, log[..i], rates), log[i], rates);
    CheckCannotCredit(Replay(db, log[..j], rates), log[j], rates);
  }

  lemma MissIsOnRecord(db: Db, txn: Txn, rates: Rates)
    requires rates.Loaded() && Healthy(db, rates) && txn.MissUnit? && Legal(db, txn)
    ensures txn.unit in Apply(db, txn, rates).daily.misses
  {
    hide Score;
    MissSound(db.profile, db.daily.difficulty.value, rates, txn.draw);
  }

  lemma CheckCannotCredit(db: Db, txn: Txn, rates: Rates)
    requires rates.Loaded() && Healthy(db, rates) && txn.Check?
    requires C.UnitOf(db.daily.rule.value, txn.req.date) in db.daily.misses
    ensures Apply(db, txn, rates).daily.streak == db.daily.streak
  {
    hide C.ScoreCheck, C.MarksFit, C.WithinOne, Career.Sound, C.UnitOf;
    C.CreditLaw(db.daily, C.Check(txn.req, db.profile, txn.draw), txn.req.date, rates);
  }

  // --- Exactly once ------------------------------------------------------------------------

  /** Each unit is charged at most once, over any number of sweeps. */
  lemma ChargedOnce(start: Db, log: seq<Txn>, i: nat, j: nat, rates: Rates)
    requires rates.Loaded() && Healthy(start, rates) && LegalLog(start, log, rates)
    requires i < j < |log| && log[i].MissUnit? && log[j].MissUnit?
    ensures log[i].unit != log[j].unit
  {
    hide Healthy, Apply, Replay;
    MissesLast(start, log, j + 1, rates);
    MissesLast(start, log, j, rates);
    MissesLast(start, log[..j], i + 1, rates);
    assert log[..j][..i + 1] == log[..i + 1] && log[..i + 1][..i] == log[..i] && log[..j + 1][..j] == log[..j];
    MissesLast(start, log, i + 1, rates);
    HistoriesAreHealthy(start, log[..i], rates);
    ReplayExtends(start, log[..i], log[i], rates);
    assert log[..i] + [log[i]] == log[..i + 1];
    MissIsOnRecord(Replay(start, log[..i], rates), log[i], rates);
  }
}
