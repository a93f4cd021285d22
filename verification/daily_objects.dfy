/** The rows of one daily, changed in place: check scoring, and the sweep of one instance
    nobody interferes with. */
module DailyObjects {
  import opened Basics
  import opened Economy
  import opened Recurrence
  import opened ProfileObjects
  import opened CheckPayout
  import opened SweepTxns
  import opened SweepProtocol
  import C = Checks

  // --- A sweep nobody interferes with ----------------------------------------------------------

  /** Every unit whose miss is legal when its turn comes is charged. */
  ghost function SoloSweep(db: Db, units: seq<Day>, draws: Day -> C.Draw, rates: Rates): (end: Db)
    requires rates.Loaded() && db.Scheduled()
    ensures end.Scheduled() && end.daily.rule == db.daily.rule && end.daily.anchor == db.daily.anchor
    decreases |units|
  {
    if units == [] then db
    else
      var txn := MissUnit(units[0], draws(units[0]));
      SoloSweep(if Legal(db, txn) then Apply(db, txn, rates) else db, units[1..], draws, rates)
  }

  lemma SoloTurn(db: Db, units: seq<Day>, draws: Day -> C.Draw, rates: Rates)
    requires rates.Loaded() && db.Scheduled()
    ensures SoloSweep(db, units, draws, rates) ==
      if units == [] then db
      else
        var txn := MissUnit(units[0], draws(units[0]));
        SoloSweep(if Legal(db, txn) then Apply(db, txn, rates) else db, units[1..], draws, rates)
  {}

  lemma {:induction false} NothingLegal(db: Db, units: seq<Day>, draws: Day -> C.Draw, rates: Rates)
    requires rates.Loaded() && db.Scheduled() && (!db.daily.active || db.daily.difficulty.None?)
    ensures SoloSweep(db, units, draws, rates) == db
    decreases |units|
  {
    if units != [] { NothingLegal(db, units[1..], draws, rates); }
  }

  lemma MoreDoneStaysSatisfied(rec: Rule, unit: Day, some: set<Day>, all: set<Day>, anchor: Day)
    requires Parsed(rec) && some <= all && UnitSatisfied(rec, unit, some, anchor)
    ensures UnitSatisfied(rec, unit, all, anchor)
  {
    if rec.TimesPerWeek? {
      SubsetSize(set d | d in some && unit - 6 <= d <= unit && d >= EffectiveAnchor(rec, anchor),
                 set d | d in all && unit - 6 <= d <= unit && d >= EffectiveAnchor(rec, anchor));
    }
  }

  /** The engine scores a miss exactly when the stored difficulty is known. */
  lemma RatedMeansScored(p: Profile, difficulty: Option<real>, rates: Rates, draw: C.Draw)
    requires rates.Loaded()
    ensures difficulty.Some? <==>
              Score(p, DailyMissed(difficulty), rates, draw.roll, draw.pick, draw.today, draw.gear).Some?
  {}

  /** A unit the pre-check skips could not have been charged. */
  lemma NotLegal(db: Db, unit: Day, draw: C.Draw, done: set<Day>)
    requires db.Scheduled() && done <= DoneDays(db.daily.marks)
    requires unit in db.daily.misses || UnitSatisfied(db.daily.rule.value, unit, done, db.daily.anchor)
    ensures !Legal(db, MissUnit(unit, draw))
  {
    hide IsUnit, UnitSatisfied;
    if UnitSatisfied(db.daily.rule.value, unit, done, db.daily.anchor) {
      MoreDoneStaysSatisfied(db.daily.rule.value, unit, done, DoneDays(db.daily.marks), db.daily.anchor);
    }
  }

  /** What is left of legality when the difficulty is not looked at: the unit gets as far as
      being scored. */
  ghost predicate Chargeable(d: C.Daily, unit: Day)
    requires d.rule.Some? && Parsed(d.rule.value)
  {
    d.active && unit !in d.misses && !Satisfied(d, unit)
  }

  lemma SkippedIsNotChargeable(d: C.Daily, unit: Day, done: set<Day>)
    requires d.rule.Some? && Parsed(d.rule.value) && done <= DoneDays(d.marks)
    requires unit in d.misses || UnitSatisfied(d.rule.value, unit, done, d.anchor)
    ensures !Chargeable(d, unit)
  {
    hide UnitSatisfied;
    if UnitSatisfied(d.rule.value, unit, done, d.anchor) {
      MoreDoneStaysSatisfied(d.rule.value, unit, done, DoneDays(d.marks), d.anchor);
    }
  }

  lemma UnratedIsNotLegal(db: Db, unit: Day, draw: C.Draw)
    requires db.Scheduled()
    ensures db.daily.difficulty.None? ==> !Legal(db, MissUnit(unit, draw))
  {}

  lemma NoneWhileInactive(d: C.Daily)
    requires d.rule.Some? && Parsed(d.rule.value)
    ensures !d.active ==> forall u :: !Chargeable(d, u)
  {}

  lemma UnitIsSunday(rec: Rule, anchor: Day, u: Day)
    requires Parsed(rec)
    ensures IsUnit(rec, anchor, u) && rec.TimesPerWeek? ==> Weekday(u) == 6
  {}

  lemma MissAdds(db: Db, unit: Day, draw: C.Draw, rates: Rates)
    requires rates.Loaded() && db.Scheduled() && Legal(db, MissUnit(unit, draw)) && MissesAreUnits(db.daily)
    ensures
      var next := Apply(db, MissUnit(unit, draw), rates);
      && |next.events| == |db.events| + 1
      && unit in next.daily.misses && (forall u :: u in db.daily.misses ==> u in next.daily.misses)
      && next.daily == db.daily.(misses := next.daily.misses, streak := next.daily.streak)
      && MissesAreUnits(next.daily)
  {
    hide Score, Absorbed, UnitSatisfied, IsUnit;
    RatedMeansScored(db.profile, db.daily.difficulty, rates, draw);
  }

  /** After a sweep of an active daily nothing due is left open: every unit it went through is
      charged or satisfied. */
  lemma {:induction false} SweepSettles(db: Db, units: seq<Day>, draws: Day -> C.Draw, rates: Rates)
    requires rates.Loaded() && db.Scheduled() && db.daily.active && db.daily.difficulty.Some?
    requires MissesAreUnits(db.daily)
    requires forall u :: u in units ==> IsUnit(db.daily.rule.value, db.daily.anchor, u)
    ensures
      var end := SoloSweep(db, units, draws, rates);
      && end.daily == db.daily.(misses := end.daily.misses, streak := end.daily.streak)
      && (forall u :: u in db.daily.misses ==> u in end.daily.misses)
      && (forall u :: u in units ==> u in end.daily.misses || Satisfied(end.daily, u))
    decreases |units|
  {
    hide Apply, UnitSatisfied, IsUnit;
    if units != [] {
      var txn := MissUnit(units[0], draws(units[0]));
      assert units[0] in units && forall u :: u in units[1..] ==> u in units;
      if Legal(db, txn) {
        MissAdds(db, units[0], draws(units[0]), rates);
        SweepSettles(Apply(db, txn, rates), units[1..], draws, rates);
      } else {
        SweepSettles(db, units[1..], draws, rates);
      }
    }
  }

  /** Sweeping the same units again charges nothing more. */
  lemma SweepAgainIsNothing(db: Db, units: seq<Day>, draws: Day -> C.Draw, again: Day -> C.Draw, rates: Rates)
    requires rates.Loaded() && db.Scheduled() && db.daily.active && db.daily.difficulty.Some?
    requires MissesAreUnits(db.daily)
    requires forall u :: u in units ==> IsUnit(db.daily.rule.value, db.daily.anchor, u)
    ensures SoloSweep(SoloSweep(db, units, draws, rates), units, again, rates) == SoloSweep(db, units, draws, rates)
  {
    hide SoloSweep;
    SweepSettles(db, units, draws, rates);
    SettledStays(SoloSweep(db, units, draws, rates), units, again, rates);
  }

  lemma {:induction false} SettledStays(db: Db, units: seq<Day>, draws: Day -> C.Draw, rates: Rates)
    requires rates.Loaded() && db.Scheduled()
    requires forall u :: u in units ==> u in db.daily.misses || Satisfied(db.daily, u)
    ensures SoloSweep(db, units, draws, rates) == db
    decreases |units|
  {
    hide Apply, UnitSatisfied, IsUnit;
    if units != [] {
      assert units[0] in units && forall u :: u in units[1..] ==> u in units;
      SettledStays(db, units[1..], draws, rates);
    }
  }

  class DailyRow {
    const rule: Option<Rule>
    const anchor: Day
    var active: bool
    var streak: nat
    var difficulty: Option<real>
    var items: set<int>
    var marks: map<Day, C.Marks>
    var misses: map<Day, bool>
    var rows: seq<C.Row>
    var events: seq<MissEvent>

    constructor (d: C.Daily)
      ensures Value() == d && events == []
    {
      rule, anchor, active, streak, difficulty := d.rule, d.anchor, d.active, d.streak, d.difficulty;
      items, marks, misses, rows, events := d.items, d.marks, d.misses, d.rows, [];
    }

    /** The rows as a value. */
    function Value(): C.Daily
      reads this
    {
      C.Daily(rule, anchor, active, streak, difficulty, items, marks, misses, rows)
    }

    // --- Check scoring -----------------------------------------------------------------------

    method TransitionMarks(date: Day, slot: C.Slot, done: bool)
      returns (share: real, first: bool, uncheck: bool, reason: Option<C.Reason>)
      requires slot.Item? ==> |items| > 0
      modifies this`marks
      ensures
        var m := C.Transition(old(C.MarksOn(Value(), date)), |items|, slot, done);
        marks == old(marks)[date := m.marks]
        && share == m.share && first == m.first && uncheck == m.uncheck && reason == m.reason
    {
      var day := C.MarksOn(Value(), date);
      var masterWasDone := C.IsDone(day, C.Whole);
      var doneItems := C.DoneItems(day);
      var n := |items|;
      share, first, uncheck, reason := 0.0, false, false, None;
      if !done {
        if !C.IsDone(day, slot) {
          reason := Some(C.NothingToUncheck);
        } else {
          day := day[slot := false];
          uncheck := true;
          if slot.Item? && masterWasDone {
            day := day[C.Whole := false];
          }
        }
      } else if masterWasDone || C.IsDone(day, slot) {
        reason := Some(C.AlreadyChecked);
      } else if slot.Item? {
        if slot !in day {
          share := C.Ratio(1, n);
        }
        day := day[slot := true];
        if |doneItems| + 1 >= n {
          first := C.Whole !in day;
          day := day[C.Whole := true];
        }
      } else {
        if C.Whole !in day {
          first := true;
          share := if n > 0 then C.Ratio(n - |doneItems|, n) else 1.0;
        }
        day := day[C.Whole := true];
      }
      marks := marks[date := day];
    }

    /** What the day has paid, summed over the ledger. */
    method PaidSoFar(date: Day) returns (paid: DayPaid)
      ensures paid == C.PaidTotals(rows, date)
    {
      paid := NOTHING;
      var i := 0;
      while i < |rows|
        invariant 0 <= i <= |rows|
        invariant paid == C.PaidTotals(rows[..i], date)
      {
        var row := rows[i];
        assert rows[..i + 1][..i] == rows[..i];
        if row.date == date && row.scored {
          paid := DayPaid(paid.share + row.share, paid.xp + row.xp, paid.gold + row.gold);
        }
        i := i + 1;
      }
      assert rows[..i] == rows;
    }

    method PayShare(share: real, date: Day, profile: GameProfile, rates: Rates, draw: C.Draw) returns (ok: bool)
      requires rates.Loaded()
      modifies this`rows, profile
      ensures
        var outcome := old(C.ApplyShare(Value(), profile.Value(), share, date, rates, draw));
        && (ok <==> outcome.Scored?)
        && Value() == (if ok then outcome.daily else old(Value()))
        && profile.Value() == (if ok then outcome.profile else old(profile.Value()))
    {
      hide C.PaidTotals, Score, FragmentOf, CritMult, CheckXp, CheckGold;
      var paid := PaidSoFar(date);
      var part := ClampShare(share, paid.share);
      if part <= 0.0 {
        rows := rows + [C.Row(date, true, part, 0, 0.0)];
        return true;
      }
      var before := profile.Value();
      ok := profile.ApplyEvent(DailyCheck(part, streak, paid.share, paid.xp as real, paid.gold, difficulty),
                               rates, draw.roll, draw.pick, draw.today, draw.gear);
      if ok {
        OnlyRated(before, part, streak, paid, difficulty, rates, draw);
        var crit := CritMult(draw.roll, Effective(before, STR, draw.gear), rates);
        var f := FragmentOf(before, part, streak, difficulty.value, crit, rates, draw.today, draw.gear);
        rows := rows + [C.Row(date, true, part, Clamp(CheckXp(f.xpBase, part, paid.xp as real), f.xpRoom),
                              MaxR(0.0, MinR(CheckGold(f.goldBase, part, paid.gold), f.goldRoom)))];
      }
    }

    /** Scores one check or uncheck. A refusal leaves no trace: the changes staged before the
        engine refused are undone. */
    method ScoreCheck(req: C.Request, profile: GameProfile, rates: Rates, draw: C.Draw)
      returns (refusal: Option<C.Refusal>)
      requires rates.Loaded() && Value().Parsable()
      modifies this, profile
      ensures events == old(events)
      ensures
        var outcome := old(C.ScoreCheck(Value(), profile.Value(), req, rates, draw));
        && refusal == (if outcome.Refused? then Some(outcome.why) else None)
        && Value() == (if outcome.Refused? then old(Value()) else outcome.daily)
        && profile.Value() == (if outcome.Refused? then old(profile.Value()) else outcome.profile)
    {
      hide C.ScoreCheck, C.Screen, C.ApplyShare, C.Transition, IsSchedulable;
      refusal := C.Screen(Value(), req, draw.today);
      C.CheckForm(Value(), profile.Value(), req, rates, draw);
      if refusal.Some? {
        return;
      }
      C.ItemsMeanSize(Value(), req, draw.today);
      var marksBefore, streakBefore := marks, streak;
      var share, first, uncheck, reason := TransitionMarks(req.date, req.slot, C.Wanted(req.claim));
      if first && rule.Some? && IsSchedulable(rule.value, req.date, anchor) {
        if C.UnitOf(rule.value, req.date) !in misses {
          streak := streak + 1;
        }
      }
      if reason.Some? {
        rows := rows + [C.Row(req.date, false, share, 0, 0.0)];
      } else if uncheck {
        rows := rows + [C.Row(req.date, true, share, 0, 0.0)];
      } else {
        var ok := PayShare(share, req.date, profile, rates, draw);
        if !ok {
          marks, streak := marksBefore, streakBefore;
          refusal := Some(C.EngineRefused);
          EngineOnly(old(Value()), old(profile.Value()), req, rates, draw);
        }
      }
    }

    // --- The sweep of one instance ---------------------------------------------------------------

    static method AnySeen(priors: seq<Day>, seen: set<Day>) returns (found: bool)
      ensures found <==> exists u :: u in priors && u in seen
    {
      var i := 0;
      while i < |priors|
        invariant 0 <= i <= |priors|
        invariant forall j :: 0 <= j < i ==> priors[j] !in seen
      {
        if priors[i] in seen {
          var u := priors[i];
          assert u in priors && u in seen;
          return true;
        }
        i := i + 1;
      }
      return false;
    }

    /** Whether a frozen miss among `read` has `unit` in its look-back window. */
    method FrozenAhead(unit: Day, read: map<Day, bool>) returns (found: bool)
      requires rule.Some? && Parsed(rule.value)
      requires forall m :: m in read ==> IsUnit(rule.value, anchor, m)
      ensures found <==> exists m :: m in read && read[m] && unit in Priors(Value(), m)
    {
      hide IsUnit, IsPriorUnits, PriorUnits;
      found := false;
      var frozen := set m | m in read && read[m] :: m;
      var left := frozen;
      while left != {}
        invariant left <= frozen
        invariant found <==> exists m :: m in frozen && m !in left && unit in Priors(Value(), m)
        decreases |left|
      {
        var m :| m in left;
        UnitIsSunday(rule.value, anchor, m);
        var window := PriorUnitsWalk(rule.value, anchor, m, LOOK_BACK);
        found := found || unit in window;
        left := left - {m};
      }
    }

    /** Whether a miss of `unit` is absorbed; `missed` is what this evaluation remembers. */
    method FreezeVerdict(unit: Day, missed: set<Day>) returns (frozen: bool)
      requires rule.Some? && Parsed(rule.value) && MissesAreUnits(Value()) && missed <= misses.Keys
      requires IsUnit(rule.value, anchor, unit)
      ensures frozen <==> Absorbed(Value(), unit)
    {
      hide PriorUnits, IsPriorUnits, IsUnit, Absorbed, EffectiveAnchor;
      UnitIsSunday(rule.value, anchor, unit);
      VerdictFromCommitted(Value(), unit, missed);
      var priors := PriorUnitsWalk(rule.value, anchor, unit, LOOK_BACK);
      var since := if |priors| > 0 then priors[|priors| - 1] else unit;
      var read := RowsFrom(misses[unit := false], since);
      var behind := AnySeen(priors, missed + read.Keys);
      var ahead := false;
      if !behind {
        ahead := FrozenAhead(unit, read);
      }
      frozen := !behind && !ahead;
    }

    /** Claims, scores and commits one due unit. `crashed` is the engine refusing the stored
        difficulty, which rolls everything back. */
    method EvaluateUnit(unit: Day, missed: set<Day>, done: set<Day>, profile: GameProfile, rates: Rates, draw: C.Draw)
      returns (recorded: bool, crashed: bool, missedNow: set<Day>, doneNow: set<Day>)
      requires rates.Loaded() && rule.Some? && Parsed(rule.value) && MissesAreUnits(Value()) && missed <= misses.Keys
      requires IsUnit(rule.value, anchor, unit) && done <= DoneDays(marks)
      modifies this`misses, this`streak, this`events, profile
      ensures
        var db := old(Db(Value(), profile.Value(), events));
        var txn := MissUnit(unit, draw);
        && recorded == Legal(db, txn)
        && Db(Value(), profile.Value(), events) == (if recorded then Apply(db, txn, rates) else db)
        && (crashed <==> old(difficulty).None? && Chargeable(db.daily, unit))
        && (!recorded && !crashed ==> !active || unit in misses || Satisfied(Value(), unit))
      ensures missed <= missedNow <= misses.Keys && done <= doneNow <= DoneDays(marks)
    {
      hide Score, UnitSatisfied, IsUnit, EffectiveAnchor, PriorUnits, IsPriorUnits;
      recorded, crashed, missedNow, doneNow := false, false, missed, done;
      if unit in misses {
        missedNow := missedNow + {unit};
        return;
      }
      if !active {
        return;
      }
      var reread := DoneIn(marks, if rule.value.TimesPerWeek? then unit - 6 else unit, unit);
      BoundedReadDecides(Value(), unit);
      if UnitSatisfied(rule.value, unit, reread, anchor) {
        doneNow := doneNow + reread;
        return;
      }
      var frozen := FreezeVerdict(unit, missed);
      var ok := profile.ApplyEvent(DailyMissed(difficulty), rates, draw.roll, draw.pick, draw.today, draw.gear);
      RatedMeansScored(old(profile.Value()), difficulty, rates, draw);
      if !ok {
        crashed := true;
        return;
      }
      var streakBefore := streak;
      if !frozen {
        streak := 0;
      }
      misses := misses[unit := frozen];
      missedNow := missedNow + {unit};
      events := events + [MissEvent(unit, frozen, streakBefore, streak)];
      recorded := true;
    }

    /** Evaluates all due units in order; `draws` are the random draws by unit. None is the
        exception of an engine that refuses the stored difficulty: no count reaches the tick. */
    method EvaluateDaily(now: int, profile: GameProfile, rates: Rates, draws: Day -> C.Draw)
      returns (count: Option<nat>)
      requires rates.Loaded() && Value().Parsable() && (rule.Some? ==> MissesAreUnits(Value()))
      modifies this`misses, this`streak, this`events, profile
      ensures rule.None? ==> count == Some(0) && old(Value()) == Value() && old(profile.Value()) == profile.Value()
      ensures rule.Some? ==>
                var db := old(Db(Value(), profile.Value(), events));
                && Db(Value(), profile.Value(), events) == SoloSweep(db, DueUnits(db.daily, now), draws, rates)
                && (count.None? <==>
                      db.daily.difficulty.None? && exists u :: u in DueUnits(db.daily, now) && Chargeable(db.daily, u))
                && (count.Some? ==> count.value == |events| - |old(events)|)
    {
      hide Chargeable, SoloSweep, UnitSatisfied, IsUnit, Apply, Absorbed, EffectiveAnchor, PriorUnits, IsPriorUnits, Legal;
      var recorded := 0;
      if rule.None? {
        return Some(recorded);
      }
      var windowStart := Max(anchor, Today(now) - LOOKBACK_DAYS);
      var units := DueNow(now, windowStart);
      var done := DoneIn(marks, windowStart, Today(now));
      var missSince := MissesReadFrom(units, windowStart);
      var missed := RowsFrom(misses, missSince).Keys;
      ghost var db := Db(Value(), profile.Value(), events);
      var k := 0;
      while k < |units|
        invariant 0 <= k <= |units|
        invariant missed <= misses.Keys && done <= DoneDays(marks)
        invariant rule.Some? && Parsed(rule.value) && MissesAreUnits(Value())
        invariant Value() == old(Value()).(misses := misses, streak := streak)
        invariant SoloSweep(Db(Value(), profile.Value(), events), units[k..], draws, rates)
               == SoloSweep(db, units, draws, rates)
        invariant |events| == |old(events)| + recorded
        invariant db.daily.difficulty.None? ==>
          Value() == db.daily && forall j :: 0 <= j < k ==> !Chargeable(db.daily, units[j])
      {
        var unit := units[k];
        assert unit in units;
        ghost var here := Db(Value(), profile.Value(), events);
        assert units[k..][0] == unit && units[k..][1..] == units[k + 1..];
        SoloTurn(here, units[k..], draws, rates);
        UnratedIsNotLegal(here, unit, draws(unit));
        if unit in missed || UnitSatisfied(rule.value, unit, done, anchor) {
          NotLegal(here, unit, draws(unit), done);
          SkippedIsNotChargeable(Value(), unit, done);
        } else {
          var ok, crashed, missedNow, doneNow := EvaluateUnit(unit, missed, done, profile, rates, draws(unit));
          missed, done := missedNow, doneNow;
          if ok {
            recorded := recorded + 1;
            MissAdds(here, unit, draws(unit), rates);
          }
          if crashed || !active {
            NothingLegal(Db(Value(), profile.Value(), events), units[k + 1..], draws, rates);
            NoneWhileInactive(db.daily);
            return if crashed then None else Some(recorded);
          }
        }
        k := k + 1;
      }
      SoloTurn(Db(Value(), profile.Value(), events), units[k..], draws, rates);
      return Some(recorded);
    }

    /** How far back the freeze evidence is loaded. */
    method MissesReadFrom(units: seq<Day>, windowStart: Day) returns (since: Day)
      requires rule.Some? && Parsed(rule.value) && forall u :: u in units ==> IsUnit(rule.value, anchor, u)
      ensures since == MissSince(Value(), units, windowStart)
    {
      hide PriorUnits, IsPriorUnits, IsUnit;
      since := windowStart;
      var k := 0;
      while k < |units|
        invariant 0 <= k <= |units|
        invariant MissSince(Value(), units[k..], since) == MissSince(Value(), units, windowStart)
      {
        assert units[k..][0] == units[k] && units[k] in units && units[k..][1..] == units[k + 1..];
        UnitIsSunday(rule.value, anchor, units[k]);
        var priors := PriorUnitsWalk(rule.value, anchor, units[k], LOOK_BACK);
        if |priors| > 0 {
          since := Min(since, priors[|priors| - 1]);
        }
        k := k + 1;
      }
    }

    /** The scheduled units of the look-back window whose grace has passed. */
    method DueNow(now: int, windowStart: Day) returns (units: seq<Day>)
      requires rule.Some? && Parsed(rule.value) && windowStart == WindowStart(Value(), now)
      ensures units == DueUnits(Value(), now)
    {
      hide IsUnit, EffectiveAnchor;
      var scheduled := ScheduledUnits(rule.value, anchor, windowStart, Today(now));
      units := [];
      var k := 0;
      while k < |scheduled|
        invariant 0 <= k <= |scheduled|
        invariant Ascending(units)
        invariant forall u :: u in units <==> u in scheduled[..k] && EvalDue(u, now)
      {
        if EvalDue(scheduled[k], now) {
          forall u | u in units ensures u < scheduled[k] {
            var j :| 0 <= j < k && scheduled[..k][j] == u;
          }
          JoinAscending(units, [scheduled[k]]);
          units := units + [scheduled[k]];
        }
        k := k + 1;
      }
      assert scheduled[..k] == scheduled;
      forall u ensures EvalDue(u, now) <==> u <= LastDue(now) { DueUpTo(u, now); }
      AscendingUnique(units, DueUnits(Value(), now));
    }
  }

  lemma OnlyRated(p: Profile, part: real, streak: nat, paid: DayPaid, difficulty: Option<real>, rates: Rates, draw: C.Draw)
    requires rates.Loaded()
    ensures
      var ev := DailyCheck(part, streak, paid.share, paid.xp as real, paid.gold, difficulty);
      Score(p, ev, rates, draw.roll, draw.pick, draw.today, draw.gear).Some? ==> difficulty.Some?
  {}

  /** Past the screen, only the engine refuses. */
  lemma EngineOnly(d: C.Daily, p: Profile, req: C.Request, rates: Rates, draw: C.Draw)
    requires rates.Loaded() && d.Parsable() && C.Screen(d, req, draw.today).None?
    ensures
      var outcome := C.ScoreCheck(d, p, req, rates, draw);
      outcome.Refused? ==> outcome.why == C.EngineRefused
  {
    hide Score, C.PaidTotals, C.Transition, C.Screen, C.Credits, FragmentOf;
  }
}
