/** What the rules schedule and what the sweep charges: said over days, mark rows and miss rows,
    by no function that the sweep is made of. */
module SweepLaws {
  import opened Basics
  import opened Economy
  import opened Recurrence
  import opened SweepTxns
  import opened SweepProtocol
  import opened DailyObjects
  import C = Checks

  // --- Which days are units -----------------------------------------------------------------------

  /** Not before the daily was created, nor before its rule was last changed. */
  predicate InForce(rec: Rule, anchor: Day, d: Day) { anchor <= d && (rec.since.Some? ==> rec.since.value <= d) }

  lemma InForceIs(rec: Rule, anchor: Day, d: Day)
    ensures InForce(rec, anchor, d) <==> EffectiveAnchor(rec, anchor) <= d
  {}

  /** Every day in force, or every one that falls on a weekday of the rule. */
  lemma DayRuleLaw(rec: Rule, anchor: Day, d: Day)
    requires Parsed(rec) && (rec.EveryDay? || rec.Weekdays?)
    ensures IsUnit(rec, anchor, d) <==> IsSchedulable(rec, d, anchor)
    ensures IsUnit(rec, anchor, d) <==> InForce(rec, anchor, d) && (rec.Weekdays? ==> d % 7 in rec.days)
  {}

  /** Of an interval's days the first, and the interval is counted from the phase of the rule. */
  lemma IntervalRuleLaw(rec: Rule, anchor: Day, i: int, r: nat)
    requires Parsed(rec) && rec.EveryNDays? && r < rec.interval
    ensures
      var d := (if rec.phase.Some? then rec.phase.value else anchor) + rec.interval * i + r;
      && (IsUnit(rec, anchor, d) <==> IsSchedulable(rec, d, anchor))
      && (IsUnit(rec, anchor, d) <==> InForce(rec, anchor, d) && i >= 0 && r == 0)
  {
    var n := rec.interval;
    RemainderIs(n, i, r);
    if i >= 0 { assert n * i >= 0; } else { Below(n, i, r); }
  }

  lemma RemainderIs(n: int, i: int, r: nat)
    requires n > 0 && r < n
    ensures (n * i + r) % n == r
  {
    var t := (n * i + r) / n - i;
    assert r - (n * i + r) % n == n * t;
    AtLeastOnce(n, t);
    AtLeastOnce(n, -t);
    assert n * -t == -(n * t);
  }

  lemma Below(n: int, i: int, r: nat)
    requires n > 0 && r < n && i < 0
    ensures n * i + r < 0
  {
    AtLeastOnce(n, -i);
    assert n * -i == -(n * i);
  }

  /** The days of the Monday-to-Sunday week ending on `sunday` that the rule is in force on. */
  function WeekInForce(rec: Rule, anchor: Day, sunday: Day): set<Day> {
    set d | sunday - 6 <= d <= sunday && InForce(rec, anchor, d)
  }

  lemma WeekSize(rec: Rule, anchor: Day, sunday: Day)
    ensures |WeekInForce(rec, anchor, sunday)|
         == Max(0, sunday - Max(sunday - 6, EffectiveAnchor(rec, anchor)) + 1)
  {
    hide EffectiveAnchor;
    var lo := Min(Max(sunday - 6, EffectiveAnchor(rec, anchor)), sunday + 1);
    forall d ensures d in WeekInForce(rec, anchor, sunday) <==> d in DayRange(lo, sunday) { InForceIs(rec, anchor, d); }
    assert WeekInForce(rec, anchor, sunday) == DayRange(lo, sunday);
  }

  /** A weekly unit is a Sunday whose week has enough days in force; any day in force can count. */
  lemma WeeklyRuleLaw(rec: Rule, anchor: Day, d: Day)
    requires Parsed(rec) && rec.TimesPerWeek?
    ensures IsUnit(rec, anchor, d) <==> d % 7 == 6 && |WeekInForce(rec, anchor, d)| >= rec.count
    ensures IsSchedulable(rec, d, anchor) <==> InForce(rec, anchor, d)
  {
    WeekSize(rec, anchor, d);
  }

  // --- Which units are due ----------------------------------------------------------------------------

  /** Due are the units of the last 35 days whose day ended three hours ago. */
  lemma DueLaw(d: C.Daily, now: int, u: Day)
    requires d.rule.Some? && Parsed(d.rule.value)
    ensures u in DueUnits(d, now) <==>
      IsUnit(d.rule.value, d.anchor, u) && d.anchor <= u && now / 86400 <= u + 35 && now >= (u + 1) * 86400 + 3 * 3600
  {
    hide IsUnit;
    DueUpTo(u, now);
  }

  // --- What is charged ----------------------------------------------------------------------------------

  /** The whole-day mark of a day is there and done. */
  predicate Completed(d: C.Daily, day: Day) { day in d.marks && C.Whole in d.marks[day] && d.marks[day][C.Whole] }

  /** A day of its own for a day-based rule; for a weekly one fewer days of the week than the rule
      asks for, counting the days in force. */
  ghost predicate Neglected(d: C.Daily, unit: Day)
    requires d.rule.Some?
  {
    var rec := d.rule.value;
    if rec.TimesPerWeek?
    then |set day | unit - 6 <= day <= unit && InForce(rec, d.anchor, day) && Completed(d, day)| < rec.count
    else !Completed(d, unit)
  }

  lemma NeglectedIs(d: C.Daily, unit: Day)
    requires d.rule.Some? && Parsed(d.rule.value)
    ensures Neglected(d, unit) <==> !Satisfied(d, unit)
  {
    var rec := d.rule.value;
    if rec.TimesPerWeek? {
      var done := DoneDays(d.marks);
      forall day ensures InForce(rec, d.anchor, day) <==> EffectiveAnchor(rec, d.anchor) <= day {
        InForceIs(rec, d.anchor, day);
      }
      assert (set day | unit - 6 <= day <= unit && InForce(rec, d.anchor, day) && Completed(d, day))
          == (set day | day in done && unit - 6 <= day <= unit && day >= EffectiveAnchor(rec, d.anchor));
    }
  }

  /** A sweep adds no miss but those of its own units that are not satisfied. */
  lemma {:induction false} OnlyUnsatisfied(db: Db, units: seq<Day>, draws: Day -> C.Draw, rates: Rates, u: Day)
    requires rates.Loaded() && db.Scheduled()
    ensures
      var end := SoloSweep(db, units, draws, rates).daily;
      u in end.misses && u !in db.daily.misses ==> u in units && !Satisfied(db.daily, u)
    decreases |units|
  {
    hide UnitSatisfied, IsUnit;
    if units != [] {
      var txn := MissUnit(units[0], draws(units[0]));
      assert units[0] in units && forall v :: v in units[1..] ==> v in units;
      var next := if Legal(db, txn) then Apply(db, txn, rates) else db;
      MissTouches(db, units[0], draws(units[0]), rates);
      OnlyUnsatisfied(next, units[1..], draws, rates, u);
      assert Satisfied(next.daily, u) <==> Satisfied(db.daily, u);
    }
  }

  lemma MissTouches(db: Db, unit: Day, draw: C.Draw, rates: Rates)
    requires rates.Loaded() && db.Scheduled()
    ensures
      var next := Apply(db, MissUnit(unit, draw), rates).daily;
      && next == db.daily.(misses := next.misses, streak := next.streak)
      && (forall m :: m in next.misses ==> m in db.daily.misses || m == unit)
  {
    hide Absorbed, Score;
  }

  /** After one undisturbed sweep of an active, rated daily a unit that was not charged before is
      charged exactly when it was due and neglected. */
  lemma SweepChargesLaw(db: Db, now: int, draws: Day -> C.Draw, rates: Rates, u: Day)
    requires rates.Loaded() && db.Scheduled() && db.daily.active && db.daily.difficulty.Some?
    requires MissesAreUnits(db.daily) && u !in db.daily.misses
    ensures
      var end := SoloSweep(db, DueUnits(db.daily, now), draws, rates).daily;
      u in end.misses <==> u in DueUnits(db.daily, now) && Neglected(db.daily, u)
  {
    hide SoloSweep, Satisfied, Neglected, IsUnit;
    var units := DueUnits(db.daily, now);
    forall v | v in units ensures IsUnit(db.daily.rule.value, db.daily.anchor, v) { DueLaw(db.daily, now, v); }
    NeglectedIs(db.daily, u);
    OnlyUnsatisfied(db, units, draws, rates, u);
    SweepSettles(db, units, draws, rates);
    SameMarks(db.daily, SoloSweep(db, units, draws, rates).daily, u);
  }

  lemma SameMarks(d: C.Daily, e: C.Daily, u: Day)
    requires d.rule.Some? && Parsed(d.rule.value) && e.rule == d.rule && e.anchor == d.anchor && e.marks == d.marks
    ensures Satisfied(d, u) <==> Satisfied(e, u)
  {}

  // --- What a charge does -----------------------------------------------------------------------------------

  /** No other miss within any seven consecutive units around this one: none before it, and none
      after it that was frozen. */
  ghost predicate Alone(d: C.Daily, unit: Day)
    requires d.rule.Some? && Parsed(d.rule.value)
  {
    forall w, k: nat, m: nat ::
      IsWindow(d.rule.value, d.anchor, w) && |w| <= 7 && k < |w| && m < |w| && w[k] == unit && w[m] in d.misses ==>
        k <= m && (k < m ==> !d.misses[w[m]])
  }

  /** An ascending list starts and ends with its bounds, if they are in it. */
  lemma EndsWithBounds(w: seq<Day>, u: Day, v: Day)
    requires Ascending(w) && u in w && v in w && forall d :: d in w ==> u <= d <= v
    ensures w[0] == u && w[|w| - 1] == v
  {
    var i :| 0 <= i < |w| && w[i] == u;
    var j :| 0 <= j < |w| && w[j] == v;
    assert w[0] in w && w[|w| - 1] in w;
  }

  lemma AllButLast(w: seq<Day>, d: Day)
    requires Ascending(w) && |w| > 0 && d in w[..|w| - 1]
    ensures d in w && d < w[|w| - 1]
  {
    var k :| 0 <= k < |w| - 1 && w[..|w| - 1][k] == d;
    assert w[k] == d;
  }

  lemma PrefixAscends(w: seq<Day>)
    requires Ascending(w) && |w| > 0
    ensures Ascending(w[..|w| - 1])
  {}

  /** Consecutive units from u to v, the earlier of which is among the n prior units of the later. */
  lemma WindowBetween(rec: Rule, anchor: Day, u: Day, v: Day, n: nat) returns (w: seq<Day>)
    requires Parsed(rec) && IsUnit(rec, anchor, v) && u in PriorUnits(rec, anchor, v, n)
    ensures IsWindow(rec, anchor, w) && 1 < |w| <= n + 1 && w[0] == u && w[|w| - 1] == v
  {
    hide IsUnit, Units, PriorUnits, Ascending;
    var prior := PriorUnits(rec, anchor, v, n);
    w := Units(rec, anchor, u, v);
    assert u in w && v in w;
    EndsWithBounds(w, u, v);
    var before := w[..|w| - 1];
    forall d | d in before ensures d in prior {
      AllButLast(w, d);
      BetweenIsPrior(rec, anchor, v, n, prior, u, d);
    }
    PrefixAscends(w);
    AscendingIsDistinct(before);
    assert SetOf(before) <= SetOf(prior);
    SubsetSize(SetOf(before), SetOf(prior));
  }

  lemma BetweenIsPrior(rec: Rule, anchor: Day, v: Day, n: nat, prior: seq<Day>, u: Day, d: Day)
    requires Parsed(rec) && IsPriorUnits(rec, anchor, v, n, prior) && u in prior
    requires IsUnit(rec, anchor, d) && u <= d < v
    ensures d in prior
  {
    hide IsUnit;
  }

  lemma AscendingIsDistinct(s: seq<Day>)
    requires Ascending(s)
    ensures |SetOf(s)| == |s|
  {
    if |s| > 0 {
      AscendingIsDistinct(s[..|s| - 1]);
      assert s[|s| - 1] !in s[..|s| - 1];
    }
  }

  lemma EarlierIsPrior(d: C.Daily, w: seq<Day>, i: nat, j: nat)
    requires d.rule.Some? && Parsed(d.rule.value) && IsWindow(d.rule.value, d.anchor, w) && |w| <= 7
    requires i < j < |w|
    ensures w[i] in Priors(d, w[j])
  {
    WindowIsPrior(d.rule.value, d.anchor, w, i, j, LOOK_BACK);
  }

  lemma AbsorbedIsAlone(d: C.Daily, w: seq<Day>, k: nat, m: nat)
    requires d.rule.Some? && Parsed(d.rule.value) && IsWindow(d.rule.value, d.anchor, w) && |w| <= 7
    requires k < |w| && m < |w| && Absorbed(d, w[k]) && w[m] in d.misses && w[k] !in d.misses
    ensures k <= m && (k < m ==> !d.misses[w[m]])
  {
    var early, late := w[Min(k, m)], w[Max(k, m)];
    if k != m { EarlierIsPrior(d, w, Min(k, m), Max(k, m)); }
    assert k != m ==> early in Priors(d, late);
  }

  lemma SeenBehind(d: C.Daily, unit: Day, u: Day)
    requires d.rule.Some? && Parsed(d.rule.value) && IsUnit(d.rule.value, d.anchor, unit)
    requires u in d.misses && u in Priors(d, unit)
    ensures !Alone(d, unit)
  {
    hide IsUnit, IsWindow, PriorUnits;
    var w := WindowBetween(d.rule.value, d.anchor, u, unit, LOOK_BACK);
    assert w[|w| - 1] == unit && w[0] in d.misses;
  }

  lemma SeenAhead(d: C.Daily, unit: Day, m: Day)
    requires d.rule.Some? && Parsed(d.rule.value) && IsUnit(d.rule.value, d.anchor, m)
    requires m in d.misses && d.misses[m] && unit in Priors(d, m)
    ensures !Alone(d, unit)
  {
    hide IsUnit, IsWindow, PriorUnits;
    var w := WindowBetween(d.rule.value, d.anchor, unit, m, LOOK_BACK);
    assert w[0] == unit && w[|w| - 1] in d.misses;
  }

  lemma AloneIs(d: C.Daily, unit: Day)
    requires d.rule.Some? && Parsed(d.rule.value) && MissesAreUnits(d)
    requires IsUnit(d.rule.value, d.anchor, unit) && unit !in d.misses
    ensures Alone(d, unit) <==> Absorbed(d, unit)
  {
    hide IsUnit, PriorUnits, IsWindow;
    forall u | u in d.misses && u in Priors(d, unit) ensures !Alone(d, unit) { SeenBehind(d, unit, u); }
    forall m | m in d.misses && d.misses[m] && unit in Priors(d, m) ensures !Alone(d, unit) { SeenAhead(d, unit, m); }
    if Absorbed(d, unit) {
      forall w, k: nat, m: nat |
        IsWindow(d.rule.value, d.anchor, w) && |w| <= 7 && k < |w| && m < |w| && w[k] == unit && w[m] in d.misses
        ensures k <= m && (k < m ==> !d.misses[w[m]])
      {
        AbsorbedIsAlone(d, w, k, m);
      }
    }
  }

  /** Charging a unit records the miss, frozen exactly when it stands alone; a miss that is not
      frozen breaks the streak; the owner is hurt either way; one event tells it all. */
  lemma MissLaw(db: Db, unit: Day, draw: C.Draw, rates: Rates)
    requires rates.Loaded() && db.Scheduled() && Legal(db, MissUnit(unit, draw)) && MissesAreUnits(db.daily)
    ensures
      var next := Apply(db, MissUnit(unit, draw), rates);
      var frozen := Alone(db.daily, unit);
      var streak := if frozen then db.daily.streak else 0;
      && next.daily == db.daily.(misses := db.daily.misses[unit := frozen], streak := streak)
      && next.events == db.events + [MissEvent(unit, frozen, db.daily.streak, streak)]
      && Score(db.profile, DailyMissed(db.daily.difficulty), rates, draw.roll, draw.pick, draw.today, draw.gear)
           == Some(next.profile)
  {
    hide Score, Absorbed, Alone, UnitSatisfied, IsUnit;
    AloneIs(db.daily, unit);
    RatedMeansScored(db.profile, db.daily.difficulty, rates, draw);
  }
}
