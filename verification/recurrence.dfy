/** Recurrence rules of a daily. The weekday of a day is its remainder modulo 7 (Monday 0,
    Sunday 6). */
module Recurrence {
  import opened Basics

  datatype Rule =
    | EveryDay(since: Option<Day>)
    | Weekdays(days: set<int>, since: Option<Day>)
    | EveryNDays(interval: int, phase: Option<Day>, since: Option<Day>)
    | TimesPerWeek(count: int, since: Option<Day>)

  /** What parsing a stored blob lets through. */
  predicate Parsed(rec: Rule) {
    match rec
    case EveryDay(_) => true
    case Weekdays(days, _) => days != {} && forall d :: d in days ==> 0 <= d <= 6
    case EveryNDays(interval, _, _) => 1 <= interval <= 365
    case TimesPerWeek(count, _) => 1 <= count <= 7
  }

  /** The earliest day the rule can schedule. */
  function EffectiveAnchor(rec: Rule, anchor: Day): Day {
    if rec.since.Some? then Max(anchor, rec.since.value) else anchor
  }

  function Weekday(day: Day): (w: int)
    ensures 0 <= w <= 6
  {
    day % 7
  }

  /** The Sunday of the day's ISO week. */
  function WeekEnd(day: Day): Day { day + (6 - Weekday(day)) }

  /** The first week with enough days left to be satisfied. */
  function FirstWeekUnit(rec: Rule, floor: Day): Day
    requires rec.TimesPerWeek?
  {
    var first := WeekEnd(floor);
    if first - floor + 1 < rec.count then first + 7 else first
  }

  predicate IsSchedulable(rec: Rule, day: Day, anchor: Day)
    requires Parsed(rec)
  {
    day >= EffectiveAnchor(rec, anchor) &&
    match rec
    case EveryDay(_) => true
    case Weekdays(days, _) => Weekday(day) in days
    case EveryNDays(interval, phase, _) =>
      var start := if phase.Some? then phase.value else anchor;
      day >= start && (day - start) % interval == 0
    case TimesPerWeek(_, _) => true
  }

  /** The scheduled units, said outright: a scheduled day, or the Sunday of a week that
      can be satisfied. */
  predicate IsUnit(rec: Rule, anchor: Day, day: Day)
    requires Parsed(rec)
  {
    if rec.TimesPerWeek? then
      Weekday(day) == 6 && day >= FirstWeekUnit(rec, EffectiveAnchor(rec, anchor))
    else IsSchedulable(rec, day, anchor)
  }

  // --- Lists of units --------------------------------------------------------------------

  ghost predicate Ascending(s: seq<Day>) { forall i, j :: 0 <= i < j < |s| ==> s[i] < s[j] }

  ghost predicate Descending(s: seq<Day>) { forall i, j :: 0 <= i < j < |s| ==> s[i] > s[j] }

  /** `units` lists exactly the units of [start, end], in order. */
  ghost predicate ListsUnits(rec: Rule, anchor: Day, start: Day, end: Day, units: seq<Day>)
    requires Parsed(rec)
  {
    && Ascending(units)
    && forall d :: d in units <==> start <= d <= end && IsUnit(rec, anchor, d)
  }

  lemma NoneAlike(a: seq<Day>, b: seq<Day>)
    requires forall d :: d in b ==> d in a
    ensures |b| > 0 ==> |a| > 0
  {
    if |b| > 0 {
      var d := b[0];
      assert d in b;
    }
  }

  /** An ascending listing of a set of days is unique. */
  lemma {:induction false} AscendingUnique(a: seq<Day>, b: seq<Day>)
    requires Ascending(a) && Ascending(b)
    requires forall d :: d in a <==> d in b
    ensures a == b
    decreases |a|
  {
    NoneAlike(a, b);
    NoneAlike(b, a);
    if |a| > 0 {
      assert a[0] in b && b[0] in a;
      var i :| 0 <= i < |a| && a[i] == b[0];
      var j :| 0 <= j < |b| && b[j] == a[0];
      assert a[0] == b[0];
      forall d ensures d in a[1..] <==> d in b[1..] {
        if d in a[1..] {
          var m :| 1 <= m < |a| && a[m] == d;
          assert d in b && d != b[0];
        }
        if d in b[1..] {
          var m :| 1 <= m < |b| && b[m] == d;
          assert d in a && d != a[0];
        }
      }
      AscendingUnique(a[1..], b[1..]);
    }
  }

  /** The n newest units before `unit`, newest first; fewer only when there are no more. */
  ghost predicate IsPriorUnits(rec: Rule, anchor: Day, unit: Day, n: nat, out: seq<Day>)
    requires Parsed(rec)
  {
    && |out| <= n
    && Descending(out)
    && (forall d :: d in out ==> d < unit && IsUnit(rec, anchor, d))
    && (forall d :: d < unit && IsUnit(rec, anchor, d) && d !in out ==>
          |out| == n && forall e :: e in out ==> d < e)
  }

  /** The predicate pins the list down. */
  lemma PriorUnitsUnique(rec: Rule, anchor: Day, unit: Day, n: nat, a: seq<Day>, b: seq<Day>)
    requires Parsed(rec)
    requires IsPriorUnits(rec, anchor, unit, n, a) && IsPriorUnits(rec, anchor, unit, n, b)
    ensures a == b
  {
    PriorUnitsAgree(rec, anchor, unit, n, a, b, Min(|a|, |b|));
    NotLonger(rec, anchor, unit, n, a, b);
    NotLonger(rec, anchor, unit, n, b, a);
  }

  /** A unit as new as one that is listed, or in a list that is not full, is listed. */
  lemma ListedIfNewer(rec: Rule, anchor: Day, unit: Day, n: nat, out: seq<Day>, d: Day)
    requires Parsed(rec) && IsPriorUnits(rec, anchor, unit, n, out) && d < unit && IsUnit(rec, anchor, d)
    requires |out| < n || exists e :: e in out && e <= d
    ensures d in out
  {}

  lemma NotLonger(rec: Rule, anchor: Day, unit: Day, n: nat, a: seq<Day>, b: seq<Day>)
    requires Parsed(rec)
    requires IsPriorUnits(rec, anchor, unit, n, a) && IsPriorUnits(rec, anchor, unit, n, b)
    requires a[..Min(|a|, |b|)] == b[..Min(|a|, |b|)]
    ensures |b| <= |a|
  {
    if |a| < |b| {
      var d := b[|a|];
      assert d in b;
      ListedIfNewer(rec, anchor, unit, n, a, d);
    }
  }

  lemma NotNewer(rec: Rule, anchor: Day, unit: Day, n: nat, a: seq<Day>, b: seq<Day>, k: nat)
    requires Parsed(rec)
    requires IsPriorUnits(rec, anchor, unit, n, a) && IsPriorUnits(rec, anchor, unit, n, b)
    requires k < |a| && k < |b| && forall i :: 0 <= i < k ==> a[i] == b[i]
    ensures b[k] <= a[k]
  {
    var d := b[k];
    assert d in b && a[k] in a;
    if a[k] < d {
      ListedIfNewer(rec, anchor, unit, n, a, d);
    }
  }

  lemma {:induction false} PriorUnitsAgree(rec: Rule, anchor: Day, unit: Day, n: nat, a: seq<Day>, b: seq<Day>, k: nat)
    requires Parsed(rec)
    requires IsPriorUnits(rec, anchor, unit, n, a) && IsPriorUnits(rec, anchor, unit, n, b)
    requires k <= |a| && k <= |b|
    ensures a[..k] == b[..k]
  {
    if k > 0 {
      PriorUnitsAgree(rec, anchor, unit, n, a, b, k - 1);
      assert a[..k - 1] == b[..k - 1];
      assert forall i :: 0 <= i < k - 1 ==> a[i] == a[..k - 1][i] == b[..k - 1][i] == b[i];
      NotNewer(rec, anchor, unit, n, a, b, k - 1);
      NotNewer(rec, anchor, unit, n, b, a, k - 1);
    }
  }

  lemma JoinAscending(a: seq<Day>, b: seq<Day>)
    requires Ascending(a) && Ascending(b) && forall x, y :: x in a && y in b ==> x < y
    ensures Ascending(a + b)
  {
    forall i, j | 0 <= i < j < |a + b| ensures (a + b)[i] < (a + b)[j] {
      if i < |a| <= j { assert (a + b)[i] in a && (a + b)[j] in b; }
    }
  }

  lemma JoinDescending(a: seq<Day>, b: seq<Day>)
    requires Descending(a) && Descending(b) && forall x, y :: x in a && y in b ==> x > y
    ensures Descending(a + b)
  {
    forall i, j | 0 <= i < j < |a + b| ensures (a + b)[i] > (a + b)[j] {
      if i < |a| <= j { assert (a + b)[i] in a && (a + b)[j] in b; }
    }
  }

  // --- Reference definitions ---------------------------------------------------------------

  ghost function Units(rec: Rule, anchor: Day, start: Day, end: Day): (units: seq<Day>)
    requires Parsed(rec)
    ensures ListsUnits(rec, anchor, start, end, units)
    decreases end - start
  {
    if start > end then []
    else
      var before := Units(rec, anchor, start, end - 1);
      JoinAscending(before, [end]);
      if IsUnit(rec, anchor, end) then before + [end] else before
  }

  ghost function PriorUnits(rec: Rule, anchor: Day, unit: Day, n: nat): (out: seq<Day>)
    requires Parsed(rec)
    ensures IsPriorUnits(rec, anchor, unit, n, out)
    decreases unit - EffectiveAnchor(rec, anchor)
  {
    if n == 0 || unit <= EffectiveAnchor(rec, anchor) then
      NoUnitBelowFloor(rec, anchor, unit);
      []
    else if IsUnit(rec, anchor, unit - 1) then
      var older := PriorUnits(rec, anchor, unit - 1, n - 1);
      JoinDescending([unit - 1], older);
      [unit - 1] + older
    else PriorUnits(rec, anchor, unit - 1, n)
  }

  lemma NoUnitBelowFloor(rec: Rule, anchor: Day, unit: Day)
    requires Parsed(rec)
    ensures unit <= EffectiveAnchor(rec, anchor) ==> forall d :: d < unit ==> !IsUnit(rec, anchor, d)
  {}

  // --- The loops ---------------------------------------------------------------------------

  /** Adjacent ranges concatenate without gap or repeat. */
  lemma UnitsConcatenate(rec: Rule, anchor: Day, a: Day, b: Day, c: Day)
    requires Parsed(rec) && a - 1 <= b <= c
    ensures Units(rec, anchor, a, c) == Units(rec, anchor, a, b) + Units(rec, anchor, b + 1, c)
  {
    var before, after := Units(rec, anchor, a, b), Units(rec, anchor, b + 1, c);
    JoinAscending(before, after);
    AscendingUnique(Units(rec, anchor, a, c), before + after);
  }

  /** No unit comes between the start of the range and the first Sunday looked at. */
  lemma FirstSunday(rec: Rule, anchor: Day, start: Day)
    requires Parsed(rec) && rec.TimesPerWeek?
    ensures
      var d := Max(WeekEnd(start), FirstWeekUnit(rec, EffectiveAnchor(rec, anchor)));
      Weekday(d) == 6 && start <= d && forall u :: start <= u < d ==> !IsUnit(rec, anchor, u)
  {}

  /** From one Sunday to the next. */
  lemma NextSunday(rec: Rule, anchor: Day, d: Day)
    requires Parsed(rec) && rec.TimesPerWeek?
    requires Weekday(d) == 6 && d >= FirstWeekUnit(rec, EffectiveAnchor(rec, anchor))
    ensures IsUnit(rec, anchor, d) && Weekday(d + 7) == 6
    ensures forall u :: d < u < d + 7 ==> !IsUnit(rec, anchor, u)
  {
    forall u | d < u < d + 7 ensures Weekday(u) != 6 {}
  }

  method WeeklyUnits(rec: Rule, anchor: Day, start: Day, end: Day) returns (units: seq<Day>)
    requires Parsed(rec) && rec.TimesPerWeek? && start <= end
    ensures units == Units(rec, anchor, start, end)
  {
    hide Units, IsUnit, Weekday, WeekEnd, FirstWeekUnit;
    units := [];
    var first := FirstWeekUnit(rec, EffectiveAnchor(rec, anchor));
    var d := Max(WeekEnd(start), first);
    FirstSunday(rec, anchor, start);
    while d <= end
      invariant Weekday(d) == 6 && first <= d && start <= d
      invariant Ascending(units)
      invariant forall u :: u in units <==> start <= u < d && u <= end && IsUnit(rec, anchor, u)
      decreases end - d
    {
      NextSunday(rec, anchor, d);
      JoinAscending(units, [d]);
      units := units + [d];
      d := d + 7;
    }
    AscendingUnique(units, Units(rec, anchor, start, end));
  }

  method ScheduledUnits(rec: Rule, anchor: Day, start: Day, end: Day) returns (units: seq<Day>)
    requires Parsed(rec)
    ensures units == Units(rec, anchor, start, end)
  {
    units := [];
    if start > end {
      return;
    }
    if rec.TimesPerWeek? {
      units := WeeklyUnits(rec, anchor, start, end);
      return;
    }
    var day := start;
    while day <= end
      invariant start <= day <= end + 1
      invariant units == Units(rec, anchor, start, day - 1)
    {
      if IsSchedulable(rec, day, anchor) {
        units := units + [day];
      }
      day := day + 1;
    }
  }

  // --- The look-back -------------------------------------------------------------------------

  /** Days between a unit and one that must follow it. */
  function Period(rec: Rule): int {
    match rec
    case EveryDay(_) => 1
    case EveryNDays(interval, _, _) => interval
    case _ => 7
  }

  lemma AtLeastOnce(m: int, t: int)
    requires m > 0
    ensures t >= 1 ==> m * t >= m
  {
    if t >= 1 { assert m * t == m + m * (t - 1); }
  }

  lemma NextMultiple(x: int, m: int)
    requires m > 0 && x % m == 0
    ensures (x + m) % m == 0
  {
    var t := x / m + 1 - (x + m) / m;
    assert (x + m) % m == m * t;
    AtLeastOnce(m, t);
    AtLeastOnce(m, -t);
  }

  lemma UnitsRecur(rec: Rule, anchor: Day, u: Day)
    requires Parsed(rec) && IsUnit(rec, anchor, u)
    ensures IsUnit(rec, anchor, u + Period(rec))
  {
    if rec.EveryNDays? {
      var start := if rec.phase.Some? then rec.phase.value else anchor;
      NextMultiple(u - start, rec.interval);
      assert u - start + rec.interval == u + rec.interval - start;
    }
  }

  /** Some unit at or below d means one just above it. */
  lemma {:induction false} NextAbove(rec: Rule, anchor: Day, u: Day, d: Day) returns (w: Day)
    requires Parsed(rec) && IsUnit(rec, anchor, u) && u <= d
    ensures d < w <= d + Period(rec) && IsUnit(rec, anchor, w)
    decreases d - u
  {
    UnitsRecur(rec, anchor, u);
    if u + Period(rec) > d {
      w := u + Period(rec);
    } else {
      w := NextAbove(rec, anchor, u + Period(rec), d);
    }
  }

  /** A list that holds six units has six places. */
  lemma SixPlaces(out: seq<Day>, w: Day, p: int)
    requires Descending(out) && p > 0
    requires w in out && w + p in out && w + 2 * p in out && w + 3 * p in out && w + 4 * p in out && w + 5 * p in out
    ensures |out| >= 6
  {
    var i0 :| 0 <= i0 < |out| && out[i0] == w;
    var i1 :| 0 <= i1 < |out| && out[i1] == w + p;
    var i2 :| 0 <= i2 < |out| && out[i2] == w + 2 * p;
    var i3 :| 0 <= i3 < |out| && out[i3] == w + 3 * p;
    var i4 :| 0 <= i4 < |out| && out[i4] == w + 4 * p;
    var i5 :| 0 <= i5 < |out| && out[i5] == w + 5 * p;
    assert i5 < i4 < i3 < i2 < i1 < i0;
  }

  /** 2200 days without a sixth unit means there is none below: the scan cap loses nothing. */
  lemma CapLosesNothing(rec: Rule, anchor: Day, unit: Day, d: Day, out: seq<Day>)
    requires Parsed(rec) && !rec.TimesPerWeek? && d <= unit - 2200 - 1
    requires Descending(out) && |out| < 6
    requires forall u :: d < u < unit && IsUnit(rec, anchor, u) ==> u in out
    ensures forall u :: u <= d ==> !IsUnit(rec, anchor, u)
  {
    forall u | u <= d ensures !IsUnit(rec, anchor, u) {
      if IsUnit(rec, anchor, u) {
        var p := Period(rec);
        var w := NextAbove(rec, anchor, u, d);
        UnitsRecur(rec, anchor, w);
        UnitsRecur(rec, anchor, w + p);
        UnitsRecur(rec, anchor, w + 2 * p);
        UnitsRecur(rec, anchor, w + 3 * p);
        UnitsRecur(rec, anchor, w + 4 * p);
        SixPlaces(out, w, p);
      }
    }
  }

  /** `out` lists the units strictly between d and `unit`, newest first. */
  ghost predicate Walked(rec: Rule, anchor: Day, unit: Day, d: Day, out: seq<Day>)
    requires Parsed(rec)
  {
    Descending(out) && forall u :: u in out <==> d < u < unit && IsUnit(rec, anchor, u)
  }

  lemma WalkOn(rec: Rule, anchor: Day, unit: Day, d: Day, next: Day, out: seq<Day>)
    requires Parsed(rec) && Walked(rec, anchor, unit, d, out) && next < d < unit
    requires forall u :: next < u < d ==> !IsUnit(rec, anchor, u)
    ensures Walked(rec, anchor, unit, next, if IsUnit(rec, anchor, d) then out + [d] else out)
  {
    hide IsUnit;
    if IsUnit(rec, anchor, d) { JoinDescending(out, [d]); }
  }

  lemma WalkEnds(rec: Rule, anchor: Day, unit: Day, d: Day, out: seq<Day>, n: nat)
    requires Parsed(rec) && Walked(rec, anchor, unit, d, out) && |out| <= n
    requires |out| < n ==> forall u :: u <= d ==> !IsUnit(rec, anchor, u)
    ensures out == PriorUnits(rec, anchor, unit, n)
  {
    hide IsUnit, PriorUnits;
    PriorUnitsUnique(rec, anchor, unit, n, out, PriorUnits(rec, anchor, unit, n));
  }

  method WeeklyWalk(rec: Rule, anchor: Day, unit: Day, n: nat) returns (out: seq<Day>)
    requires Parsed(rec) && rec.TimesPerWeek? && Weekday(unit) == 6
    ensures out == PriorUnits(rec, anchor, unit, n)
  {
    hide PriorUnits, IsPriorUnits, Walked;
    out := [];
    var d := unit - 7;
    var first := FirstWeekUnit(rec, EffectiveAnchor(rec, anchor));
    WalkStarts(rec, anchor, unit, d);
    while |out| < n && d >= first
      invariant |out| <= n && Weekday(d) == 6 && d < unit
      invariant Walked(rec, anchor, unit, d, out)
      decreases d - first
    {
      WalkOn(rec, anchor, unit, d, d - 7, out);
      out := out + [d];
      d := d - 7;
    }
    WalkEnds(rec, anchor, unit, d, out, n);
  }

  lemma WalkStarts(rec: Rule, anchor: Day, unit: Day, d: Day)
    requires Parsed(rec) && forall u :: d < u < unit ==> !IsUnit(rec, anchor, u)
    ensures Walked(rec, anchor, unit, d, [])
  {}

  /** The streak freeze looks back at most six units. */
  method PriorUnitsWalk(rec: Rule, anchor: Day, unit: Day, n: nat) returns (out: seq<Day>)
    requires Parsed(rec) && n <= 6
    requires rec.TimesPerWeek? ==> Weekday(unit) == 6
    ensures out == PriorUnits(rec, anchor, unit, n)
  {
    hide PriorUnits, IsPriorUnits, Walked, Descending;
    if rec.TimesPerWeek? {
      out := WeeklyWalk(rec, anchor, unit, n);
      return;
    }
    out := [];
    var floor := EffectiveAnchor(rec, anchor);
    var d := unit - 1;
    var scanned := 0;
    WalkStarts(rec, anchor, unit, d);
    while |out| < n && d >= floor && scanned < 2200
      invariant |out| <= n && d == unit - 1 - scanned && 0 <= scanned <= 2200
      invariant Walked(rec, anchor, unit, d, out)
    {
      WalkOn(rec, anchor, unit, d, d - 1, out);
      if IsSchedulable(rec, d, anchor) {
        out := out + [d];
      }
      d := d - 1;
      scanned := scanned + 1;
    }
    if |out| < n && d >= floor {
      WalkCapped(rec, anchor, unit, d, out);
    }
    WalkEnds(rec, anchor, unit, d, out, n);
  }

  lemma WalkCapped(rec: Rule, anchor: Day, unit: Day, d: Day, out: seq<Day>)
    requires Parsed(rec) && !rec.TimesPerWeek? && d <= unit - 2200 - 1 && |out| < 6
    requires Walked(rec, anchor, unit, d, out)
    ensures forall u :: u <= d ==> !IsUnit(rec, anchor, u)
  {
    hide IsUnit;
    CapLosesNothing(rec, anchor, unit, d, out);
  }

  // --- Weekly units can be satisfied -----------------------------------------------------------

  /** Whether a unit counts as completed given the days marked done. */
  predicate UnitSatisfied(rec: Rule, unit: Day, done: set<Day>, anchor: Day)
    requires Parsed(rec)
  {
    if rec.TimesPerWeek? then
      |set d | d in done && unit - 6 <= d <= unit && d >= EffectiveAnchor(rec, anchor)| >= rec.count
    else unit in done
  }

  function DayRange(lo: Day, hi: Day): (days: set<Day>)
    requires lo <= hi + 1
    ensures forall d :: d in days <==> lo <= d <= hi
    ensures |days| == hi - lo + 1
    decreases hi - lo + 1
  {
    if lo > hi then {} else DayRange(lo, hi - 1) + {hi}
  }

  /** The days of the week that ends on `sunday`, from `lo` on. */
  lemma DaysOfWeek(sunday: Day, lo: Day)
    requires Weekday(sunday) == 6 && sunday - 6 <= lo
    ensures forall d :: lo <= d <= sunday ==> WeekEnd(d) == sunday
  {
    forall d | lo <= d <= sunday ensures WeekEnd(d) == sunday {
      assert d == (sunday - 6) + (d - (sunday - 6)) && (sunday - 6) % 7 == 0;
    }
  }

  /** Counting the days of a range inside the week leaves none of them out. */
  lemma AllOfThemCount(sunday: Day, floor: Day, lo: Day)
    requires sunday - 6 <= lo <= sunday + 1 && floor <= lo
    ensures |set d | d in DayRange(lo, sunday) && sunday - 6 <= d <= sunday && d >= floor| == sunday - lo + 1
  {
    var all := DayRange(lo, sunday);
    var counted := set d | d in all && sunday - 6 <= d <= sunday && d >= floor;
    assert forall d :: d in counted <==> d in all;
    assert counted == all;
  }

  lemma EnoughDaysLeft(rec: Rule, anchor: Day, unit: Day)
    requires Parsed(rec) && rec.TimesPerWeek? && IsUnit(rec, anchor, unit)
    ensures Weekday(unit) == 6 && EffectiveAnchor(rec, anchor) <= unit
    ensures unit - Max(unit - 6, EffectiveAnchor(rec, anchor)) + 1 >= rec.count
  {}

  /** Every scheduled unit can be satisfied by checking the schedulable days of its own
      week (or its own day), so no unit is an unavoidable miss. */
  lemma UnitsAreSatisfiable(rec: Rule, anchor: Day, unit: Day) returns (done: set<Day>)
    requires Parsed(rec) && IsUnit(rec, anchor, unit)
    ensures UnitSatisfied(rec, unit, done, anchor)
    ensures forall d :: d in done ==>
              IsSchedulable(rec, d, anchor) && if rec.TimesPerWeek? then WeekEnd(d) == unit else d == unit
  {
    hide EffectiveAnchor, WeekEnd, Weekday, FirstWeekUnit;
    if rec.TimesPerWeek? {
      var floor := EffectiveAnchor(rec, anchor);
      var lo := Max(unit - 6, floor);
      EnoughDaysLeft(rec, anchor, unit);
      DaysOfWeek(unit, lo);
      AllOfThemCount(unit, floor, lo);
      done := DayRange(lo, unit);
    } else {
      done := {unit};
    }
  }

  /** A Sunday that is not a unit is one no choice of check days could have satisfied: the
      rule skips only unavoidable misses. */
  lemma SkippedWeekIsUnsatisfiable(rec: Rule, anchor: Day, sunday: Day, done: set<Day>)
    requires Parsed(rec) && rec.TimesPerWeek? && Weekday(sunday) == 6 && !IsUnit(rec, anchor, sunday)
    ensures !UnitSatisfied(rec, sunday, done, anchor)
  {
    var floor := EffectiveAnchor(rec, anchor);
    var counted := set d | d in done && sunday - 6 <= d <= sunday && d >= floor;
    var lo := Min(Max(sunday - 6, floor), sunday + 1);
    SubsetSize(counted, DayRange(lo, sunday));
  }

  // --- Windows of consecutive units ----------------------------------------------------------

  /** Consecutive scheduled units, oldest first. */
  ghost predicate IsWindow(rec: Rule, anchor: Day, w: seq<Day>)
    requires Parsed(rec)
  {
    |w| > 0 && ListsUnits(rec, anchor, w[0], w[|w| - 1], w)
  }

  function SetOf(s: seq<Day>): (r: set<Day>)
    ensures forall d :: d in r <==> d in s
    ensures |r| <= |s|
  {
    if |s| == 0 then {} else SetOf(s[..|s| - 1]) + {s[|s| - 1]}
  }

  lemma DescendingIsDistinct(s: seq<Day>)
    requires Descending(s)
    ensures |SetOf(s)| == |s|
  {
    if |s| > 0 {
      DescendingIsDistinct(s[..|s| - 1]);
      assert s[|s| - 1] !in s[..|s| - 1];
    }
  }

  /** Inside a window of at most n + 1 consecutive units, an earlier unit is among the n
      prior units of a later one. */
  lemma WindowIsPrior(rec: Rule, anchor: Day, w: seq<Day>, i: nat, j: nat, n: nat)
    requires Parsed(rec) && IsWindow(rec, anchor, w) && |w| <= n + 1
    requires i < j < |w|
    ensures w[i] in PriorUnits(rec, anchor, w[j], n)
  {
    var prior := PriorUnits(rec, anchor, w[j], n);
    if w[i] !in prior {
      assert w[i] in w && w[j] in w && w[0] in w && w[|w| - 1] in w;
      var between := w[i + 1..j];
      forall d | d in prior ensures d in between {
        assert w[0] <= w[i] < d < w[j] <= w[|w| - 1];
        assert d in w;
        var m :| 0 <= m < |w| && w[m] == d;
        assert i < m < j;
        assert between[m - i - 1] == d;
      }
      DescendingIsDistinct(prior);
      assert SetOf(prior) <= SetOf(between);
      SubsetSize(SetOf(prior), SetOf(between));
    }
  }
}
