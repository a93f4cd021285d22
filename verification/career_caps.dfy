/** The daily caps over whole careers. They hold as long as no day is booked on again after
    another day was, and on the days of a list of requests exactly then. */
module CareerCaps {
  import opened Basics
  import opened Economy
  import opened EconomyLaws
  import opened Character
  import opened Career

  /** What a deed adds to the XP earned and the gold held. */
  function XpGained(p: Profile, q: Profile, rates: Rates): int
    requires rates.Loaded()
  {
    Max(0, Standing(q, rates) - Standing(p, rates))
  }

  function GoldGained(p: Profile, q: Profile): real { MaxR(0.0, q.gold - p.gold) }

  function XpBooked(p: Profile, turns: seq<Turn>, day: Day, rates: Rates): (sum: int)
    requires rates.Loaded()
    ensures sum >= 0
    decreases |turns|
  {
    if turns == [] then 0
    else
      var q := Do(p, turns[0].deed, rates, turns[0].wall);
      (if BookingDay(p, turns[0].deed, turns[0].wall) == day then XpGained(p, q, rates) else 0)
      + XpBooked(q, turns[1..], day, rates)
  }

  function GoldBooked(p: Profile, turns: seq<Turn>, day: Day, rates: Rates): (sum: real)
    requires rates.Loaded()
    ensures sum >= 0.0
    decreases |turns|
  {
    if turns == [] then 0.0
    else
      var q := Do(p, turns[0].deed, rates, turns[0].wall);
      (if BookingDay(p, turns[0].deed, turns[0].wall) == day then GoldGained(p, q) else 0.0)
      + GoldBooked(q, turns[1..], day, rates)
  }

  /** What the cap of `day` lets through while the day has not been left. */
  function XpOpen(p: Profile, day: Day, rates: Rates): int {
    Max(0, rates.dailyXpCap - if p.totalsDay == Some(day) then p.xpToday else 0)
  }

  function GoldOpen(p: Profile, day: Day, rates: Rates): real {
    MaxR(0.0, rates.dailyGoldCap - if p.totalsDay == Some(day) then p.goldToday else 0.0)
  }

  // --- The days that are booked on ---------------------------------------------------------

  /** The turn leaves its booking day as the day of the counters. */
  predicate Books(p: Profile, turn: Turn, rates: Rates)
    requires rates.Loaded()
  {
    && Scores(turn.deed)
    && Do(p, turn.deed, rates, turn.wall).totalsDay == Some(BookingDay(p, turn.deed, turn.wall))
  }

  function Start(p: Profile): seq<Day> { if p.totalsDay.Some? then [p.totalsDay.value] else [] }

  /** The days a career books on, in order. */
  function Booked(p: Profile, turns: seq<Turn>, rates: Rates): seq<Day>
    requires rates.Loaded()
    decreases |turns|
  {
    if turns == [] then []
    else
      (if Books(p, turns[0], rates) then [BookingDay(p, turns[0].deed, turns[0].wall)] else [])
      + Booked(Do(p, turns[0].deed, rates, turns[0].wall), turns[1..], rates)
  }

  /** Once another day has followed, a day does not come again. */
  predicate NoReturn(days: seq<Day>) {
    forall i, j, k :: 0 <= i < j < k < |days| && days[i] == days[k] ==> days[j] == days[i]
  }

  lemma NoReturnSuffix(days: seq<Day>, m: nat)
    requires NoReturn(days) && m <= |days|
    ensures NoReturn(days[m..])
  {
    forall i, j, k | 0 <= i < j < k < |days[m..]| && days[m..][i] == days[m..][k] ensures days[m..][j] == days[m..][i] {
      assert days[m + i] == days[m + k];
    }
  }

  lemma LeftForGood(first: Day, second: Day, rest: seq<Day>)
    requires NoReturn([first, second] + rest) && first != second
    ensures first !in rest
  {
    var days := [first, second] + rest;
    assert days[0] == first && days[1] == second;
    forall k | 0 <= k < |rest| ensures rest[k] != first { assert days[k + 2] == rest[k]; }
  }

  // --- One deed ------------------------------------------------------------------------------

  /** What a deed books on a day comes out of what is open on it, unless the day is left for
      another one; and what books nothing earns nothing. */
  lemma DoBooks(p: Profile, turn: Turn, day: Day, rates: Rates)
    requires rates.Loaded() && Sound(p, rates)
    ensures
      var q := Do(p, turn.deed, rates, turn.wall);
      var b := BookingDay(p, turn.deed, turn.wall);
      && (Books(p, turn, rates) && (b == day || p.totalsDay != Some(day)) ==>
            && XpOpen(q, day, rates) + (if b == day then XpGained(p, q, rates) else 0) <= XpOpen(p, day, rates)
            && GoldOpen(q, day, rates) + (if b == day then GoldGained(p, q) else 0.0) <= GoldOpen(p, day, rates))
      && (!Books(p, turn, rates) ==>
            && q.totalsDay == p.totalsDay && q.xpToday == p.xpToday && q.goldToday == p.goldToday
            && XpGained(p, q, rates) == 0 && GoldGained(p, q) == 0.0)
  {
    hide Score, Sound, Standing, Distribute, Allocate, Respec, SelectClass, Pay, ApplyHpLoss, HpLost, Total, Wealth,
      XpToNext;
    var deed, wall := turn.deed, turn.wall;
    if !Scores(deed) {
      SpendLaw(p, deed, rates, wall);
      SameStanding(p, Do(p, deed, rates, wall), rates);
    } else if Result(p, deed, rates, wall).Some? {
      var today := BookingDay(p, deed, wall);
      var effect := ScoreLands(p, deed.ev, rates, deed.roll, deed.pick, today, deed.gear);
      LandLaw(p, effect, rates, deed.pick, today, deed.gear);
    }
  }

  lemma SameStanding(p: Profile, q: Profile, rates: Rates)
    requires rates.Loaded() && p.level == q.level && p.xp == q.xp
    ensures Standing(p, rates) == Standing(q, rates)
  {}

  // --- Whole careers ---------------------------------------------------------------------------

  /** A day that is not booked on earns nothing. */
  lemma {:induction false} NothingBooked(p: Profile, turns: seq<Turn>, day: Day, rates: Rates)
    requires rates.Loaded() && Sound(p, rates) && day !in Booked(p, turns, rates)
    ensures XpBooked(p, turns, day, rates) == 0 && GoldBooked(p, turns, day, rates) == 0.0
    decreases |turns|
  {
    hide Do, Sound, BookingDay, XpGained, GoldGained, Books;
    if turns != [] {
      DoLaw(p, turns[0], rates);
      DoBooks(p, turns[0], day, rates);
      NothingBooked(Do(p, turns[0].deed, rates, turns[0].wall), turns[1..], day, rates);
    }
  }

  lemma BooksItsDay(p: Profile, turn: Turn, rates: Rates)
    requires rates.Loaded() && Books(p, turn, rates)
    ensures Start(Do(p, turn.deed, rates, turn.wall)) == [BookingDay(p, turn.deed, turn.wall)]
  {}

  lemma BookedCons(p: Profile, turns: seq<Turn>, rates: Rates)
    requires rates.Loaded() && Sound(p, rates) && turns != []
    requires NoReturn(Start(p) + Booked(p, turns, rates))
    ensures
      var q := Do(p, turns[0].deed, rates, turns[0].wall);
      var b := BookingDay(p, turns[0].deed, turns[0].wall);
      && NoReturn(Start(q) + Booked(q, turns[1..], rates))
      && (Books(p, turns[0], rates) && p.totalsDay.Some? && p.totalsDay.value != b ==>
            p.totalsDay.value !in Booked(q, turns[1..], rates))
  {
    hide Do, Sound, BookingDay, Books, NoReturn;
    var q := Do(p, turns[0].deed, rates, turns[0].wall);
    var b := BookingDay(p, turns[0].deed, turns[0].wall);
    DoBooks(p, turns[0], b, rates);
    if Books(p, turns[0], rates) {
      BooksItsDay(p, turns[0], rates);
      HeadBooked(p, b, Booked(q, turns[1..], rates));
    } else {
      assert [] + Booked(q, turns[1..], rates) == Booked(q, turns[1..], rates);
    }
  }

  lemma HeadBooked(p: Profile, b: Day, rest: seq<Day>)
    requires NoReturn(Start(p) + ([b] + rest))
    ensures NoReturn([b] + rest)
    ensures p.totalsDay.Some? && p.totalsDay.value != b ==> p.totalsDay.value !in rest
  {
    hide NoReturn;
    var all := Start(p) + ([b] + rest);
    NoReturnSuffix(all, |Start(p)|);
    assert all[|Start(p)|..] == [b] + rest;
    if p.totalsDay.Some? && p.totalsDay.value != b {
      assert all == [p.totalsDay.value, b] + rest;
      LeftForGood(p.totalsDay.value, b, rest);
    }
  }

  /** Over a whole career, ingests and session steps in any order: if no day is booked on again
      after another day was, what is earned on the account of one day stays within what the
      day's caps had open. */
  lemma {:induction false} CapsHold(p: Profile, turns: seq<Turn>, day: Day, rates: Rates)
    requires rates.Loaded() && Sound(p, rates) && NoReturn(Start(p) + Booked(p, turns, rates))
    ensures XpBooked(p, turns, day, rates) <= XpOpen(p, day, rates)
    ensures GoldBooked(p, turns, day, rates) <= GoldOpen(p, day, rates)
    decreases |turns|
  {
    hide Do, Sound, BookingDay, XpGained, GoldGained, Books, NoReturn, Start, Booked;
    if turns != [] {
      var q := Do(p, turns[0].deed, rates, turns[0].wall);
      DoLaw(p, turns[0], rates);
      DoBooks(p, turns[0], day, rates);
      BookedCons(p, turns, rates);
      CapsHold(q, turns[1..], day, rates);
      if Books(p, turns[0], rates) && p.totalsDay == Some(day) && BookingDay(p, turns[0].deed, turns[0].wall) != day {
        NothingBooked(q, turns[1..], day, rates);
      }
    }
  }

  // --- Days read in order ------------------------------------------------------------------------

  predicate BookedBy(p: Profile, day: Day) { p.totalsDay.Some? ==> p.totalsDay.value <= day }

  /** A transition is never persisted before the clock reaches its day. */
  predicate Timely(turn: Turn) { turn.deed.Stepped? ==> turn.deed.stepDay <= turn.wall }

  /** The clock never runs back, and is past `floor` to begin with. */
  predicate Clocked(floor: Day, turns: seq<Turn>)
    decreases |turns|
  {
    turns == [] || (floor <= turns[0].wall && Timely(turns[0]) && Clocked(turns[0].wall, turns[1..]))
  }

  predicate Rising(days: seq<Day>) { forall i, j :: 0 <= i < j < |days| ==> days[i] <= days[j] }

  lemma RisingCons(first: Day, days: seq<Day>)
    requires Rising(days) && |days| > 0 && first <= days[0]
    ensures Rising([first] + days)
  {
    assert forall j :: 0 < j <= |days| ==> ([first] + days)[j] == days[j - 1];
  }

  lemma RisingNeverReturns(days: seq<Day>)
    requires Rising(days)
    ensures NoReturn(days)
  {}

  lemma BooksForward(p: Profile, turn: Turn, floor: Day, rates: Rates)
    requires rates.Loaded() && Sound(p, rates) && BookedBy(p, floor) && floor <= turn.wall && Timely(turn)
    ensures
      var q := Do(p, turn.deed, rates, turn.wall);
      var b := BookingDay(p, turn.deed, turn.wall);
      && BookedBy(q, turn.wall) && BookedBy(p, b)
      && (p.totalsDay.Some? ==> q.totalsDay.Some? && p.totalsDay.value <= q.totalsDay.value)
  {
    hide Do, Sound, Standing;
    DoBooks(p, turn, floor, rates);
  }

  /** While the clock does not run back, the booked days only rise, whichever order late session
      steps come in: so none comes again. */
  lemma {:induction false} ClockedRises(p: Profile, turns: seq<Turn>, floor: Day, rates: Rates)
    requires rates.Loaded() && Sound(p, rates) && BookedBy(p, floor) && Clocked(floor, turns)
    ensures Rising(Start(p) + Booked(p, turns, rates)) && NoReturn(Start(p) + Booked(p, turns, rates))
    ensures
      var q := After(p, turns, rates);
      p.totalsDay.Some? ==> q.totalsDay.Some? && p.totalsDay.value <= q.totalsDay.value
    decreases |turns|
  {
    hide Do, Sound, BookingDay, Books, Timely, Rising, NoReturn;
    if turns == [] {
      assert Rising(Start(p) + []) by { OneRises(p); }
    } else {
      var q := Do(p, turns[0].deed, rates, turns[0].wall);
      var rest := Booked(q, turns[1..], rates);
      DoLaw(p, turns[0], rates);
      DoBooks(p, turns[0], floor, rates);
      BooksForward(p, turns[0], floor, rates);
      ClockedRises(q, turns[1..], turns[0].wall, rates);
      if Books(p, turns[0], rates) {
        BooksItsDay(p, turns[0], rates);
        assert Start(p) + Booked(p, turns, rates) == Start(p) + (Start(q) + rest);
        if p.totalsDay.Some? {
          RisingCons(p.totalsDay.value, Start(q) + rest);
        } else {
          assert Start(p) + (Start(q) + rest) == Start(q) + rest;
        }
      } else {
        assert Start(p) + Booked(p, turns, rates) == Start(q) + rest;
      }
    }
    RisingNeverReturns(Start(p) + Booked(p, turns, rates));
  }

  lemma OneRises(p: Profile)
    ensures Rising(Start(p) + [])
  {}

  /** Then the days before the newest booked one are shut as well. */
  lemma CapsHoldInOrder(p: Profile, turns: seq<Turn>, floor: Day, day: Day, rates: Rates)
    requires rates.Loaded() && Sound(p, rates) && BookedBy(p, floor) && Clocked(floor, turns)
    ensures XpBooked(p, turns, day, rates) <= XpOpen(p, day, rates)
    ensures GoldBooked(p, turns, day, rates) <= GoldOpen(p, day, rates)
    ensures p.totalsDay.Some? && day < p.totalsDay.value ==>
      XpBooked(p, turns, day, rates) == 0 && GoldBooked(p, turns, day, rates) == 0.0
  {
    hide Sound, XpOpen, GoldOpen;
    ClockedRises(p, turns, floor, rates);
    CapsHold(p, turns, day, rates);
    if p.totalsDay.Some? && day < p.totalsDay.value {
      var all := Start(p) + Booked(p, turns, rates);
      forall k | 0 <= k < |Booked(p, turns, rates)| ensures Booked(p, turns, rates)[k] != day {
        assert all[0] <= all[k + 1];
      }
      NothingBooked(p, turns, day, rates);
    }
  }

  // --- The days of a list of requests ---------------------------------------------------------------

  /** Requests that book at these days, in the order they get the profile. */
  predicate IngestsOn(turns: seq<Turn>, days: seq<Day>) {
    |turns| == |days| && forall k :: 0 <= k < |turns| ==> turns[k].deed.Ingested? && turns[k].wall == days[k]
  }

  /** Whatever is asked on these days, by whoever has booked nothing yet, no day's XP goes past
      its cap. */
  ghost predicate KeepsXpCap(days: seq<Day>) {
    forall p: Profile, turns: seq<Turn>, day: Day, rates: Rates ::
      rates.Loaded() && Sound(p, rates) && p.totalsDay.None? && IngestsOn(turns, days) ==>
        XpBooked(p, turns, day, rates) <= Max(0, rates.dailyXpCap)
  }

  ghost predicate KeepsGoldCap(days: seq<Day>) {
    forall p: Profile, turns: seq<Turn>, day: Day, rates: Rates ::
      rates.Loaded() && Sound(p, rates) && p.totalsDay.None? && IngestsOn(turns, days) ==>
        GoldBooked(p, turns, day, rates) <= MaxR(0.0, rates.dailyGoldCap)
  }

  lemma NoReturnWithout(days: seq<Day>, n: nat)
    requires NoReturn(days) && n < |days|
    ensures NoReturn(days[..n] + days[n + 1..])
  {
    var less := days[..n] + days[n + 1..];
    forall i, j, k | 0 <= i < j < k < |less| && less[i] == less[k] ensures less[j] == less[i] {
      assert less[i] == days[if i < n then i else i + 1];
      assert less[j] == days[if j < n then j else j + 1];
      assert less[k] == days[if k < n then k else k + 1];
    }
  }

  lemma NoReturnCons(first: Day, days: seq<Day>)
    requires NoReturn(days) && |days| > 0 && (first == days[0] || first !in days)
    ensures NoReturn([first] + days)
  {
    var more := [first] + days;
    forall i, j, k | 0 <= i < j < k < |more| && more[i] == more[k] ensures more[j] == more[i] {
      assert more[j] == days[j - 1] && more[k] == days[k - 1];
      if i > 0 {
        assert more[i] == days[i - 1];
      } else if first == days[0] && j > 1 {
        assert days[0] == days[k - 1] ==> days[j - 1] == days[0];
      }
    }
  }

  /** What is booked on is among the days of the requests. */
  lemma {:induction false} BookedAmong(p: Profile, turns: seq<Turn>, days: seq<Day>, rates: Rates)
    requires rates.Loaded() && Sound(p, rates) && IngestsOn(turns, days)
    requires NoReturn(Start(p) + days)
    ensures NoReturn(Start(p) + Booked(p, turns, rates))
    ensures forall d :: d in Booked(p, turns, rates) ==> d in days
    decreases |turns|
  {
    hide Do, Sound, Books, NoReturn;
    if turns == [] {
      assert Start(p) + Booked(p, turns, rates) == Start(p) + days;
    } else {
      var q := Do(p, turns[0].deed, rates, turns[0].wall);
      DoLaw(p, turns[0], rates);
      DoBooks(p, turns[0], days[0], rates);
      var all, rest := Start(p) + days, Booked(q, turns[1..], rates);
      var at := |Start(p)|;
      if Books(p, turns[0], rates) {
        BooksItsDay(p, turns[0], rates);
        NoReturnSuffix(all, at);
        assert all[at..] == Start(q) + days[1..];
        BookedAmong(q, turns[1..], days[1..], rates);
        assert Start(p) + Booked(p, turns, rates) == Start(p) + (Start(q) + rest);
        if p.totalsDay.Some? {
          StartsAgain(p.totalsDay.value, days[0], days[1..], rest, all);
        } else {
          assert [] + (Start(q) + rest) == Start(q) + rest;
        }
      } else {
        NoReturnWithout(all, at);
        assert all[..at] + all[at + 1..] == Start(q) + days[1..];
        BookedAmong(q, turns[1..], days[1..], rates);
        assert [] + rest == rest;
      }
    }
  }

  lemma StartsAgain(start: Day, b: Day, days: seq<Day>, rest: seq<Day>, all: seq<Day>)
    requires all == [start] + ([b] + days) && NoReturn(all) && NoReturn([b] + rest)
    requires forall d :: d in rest ==> d in days
    ensures NoReturn([start] + ([b] + rest))
  {
    hide NoReturn;
    if start != b {
      assert all == [start, b] + days;
      LeftForGood(start, b, days);
    }
    NoReturnCons(start, [b] + rest);
  }

  // --- A day that comes again --------------------------------------------------------------------

  /** A batch with a thousand focused minutes, a direct check of an easy daily, a marker. */
  const LONG_FOCUS := Ingested(FocusDone(1000.0, Some(1.0)), 0.5, 0, NO_GEAR)

  const LATE_CHECK := Ingested(DailyCheck(1.0, 0, 0.0, 0.0, 0.0, Some(1.0)), 0.5, 0, NO_GEAR)

  const NOTHING := Ingested(Marker, 0.5, 0, NO_GEAR)

  /** A profile with no points allocated, on any day. */
  ghost predicate Plain(p: Profile) { Sound(p, DEFAULTS) && p.stats == [0, 0, 0, 0] }

  lemma NewcomerIsPlain()
    ensures DEFAULTS.Loaded() && Plain(NEWCOMER)
  {
    assert XpToNext(1, DEFAULTS) >= 1;
  }

  /** What a deed that pays these amounts does to a plain profile. */
  ghost predicate PaysOut(p: Profile, deed: Deed, day: Day, xp: int, gold: real)
    requires DEFAULTS.Loaded()
  {
    var q := Do(p, deed, DEFAULTS, day);
    && Plain(q) && q.totalsDay == Some(day)
    && XpGained(p, q, DEFAULTS) == Clamp(xp, 500 - SyncToday(p, day).xpToday)
    && GoldGained(p, q) == MaxR(0.0, MinR(gold, 150.0 - SyncToday(p, day).goldToday))
  }

  lemma FocusPaysOut(p: Profile, day: Day)
    requires DEFAULTS.Loaded() && Plain(p)
    ensures PaysOut(p, LONG_FOCUS, day, 1000, 200.0)
  {
    hide LevelUps, Standing, AwardXp, AwardGold, Sound;
    assert Effective(p, STR, NO_GEAR) == 0 && Effective(p, INT, NO_GEAR) == 0 && Effective(p, PER, NO_GEAR) == 0;
    assert CritMult(0.5, 0, DEFAULTS) == 1.0;
    assert FocusXp(p, 1000.0, 1.0, 1.0, DEFAULTS, NO_GEAR) == 1000;
    assert FocusGold(p, 1000.0, 1.0, 1.0, DEFAULTS, NO_GEAR) == 200.0;
    PayLaw(p, 1000, 200.0, DEFAULTS, day);
  }

  lemma CheckPaysOut(p: Profile, day: Day)
    requires DEFAULTS.Loaded() && Plain(p)
    ensures PaysOut(p, LATE_CHECK, day, 6, 1.0)
  {
    hide LevelUps, Standing, AwardXp, AwardGold, Sound;
    assert Effective(p, STR, NO_GEAR) == 0 && Effective(p, INT, NO_GEAR) == 0 && Effective(p, PER, NO_GEAR) == 0;
    assert CritMult(0.5, 0, DEFAULTS) == 1.0;
    assert XpBase(p, 1.0, 1.0, DEFAULTS, NO_GEAR) == 6.0 && CheckXp(6.0, 1.0, 0.0) == 6;
    assert GoldBase(p, 1.0, 1.0, 0, DEFAULTS, NO_GEAR) == 1.0 && CheckGold(1.0, 1.0, 0.0) == 1.0;
    PayLaw(p, 6, 1.0, DEFAULTS, day);
  }

  /** A focus phase at i, direct checks at j and k, and nothing else. */
  function Scenario(days: seq<Day>, i: nat, j: nat, k: nat): seq<Turn> {
    seq(|days|, n requires 0 <= n < |days| =>
      Turn(if n == i then LONG_FOCUS else if n == j || n == k then LATE_CHECK else NOTHING, days[n]))
  }

  lemma {:induction false} IdleUntil(p: Profile, turns: seq<Turn>, n: nat, m: nat, day: Day)
    requires DEFAULTS.Loaded() && n <= m <= |turns| && forall l :: n <= l < m ==> turns[l].deed == NOTHING
    ensures XpBooked(p, turns[n..], day, DEFAULTS) == XpBooked(p, turns[m..], day, DEFAULTS)
    ensures GoldBooked(p, turns[n..], day, DEFAULTS) == GoldBooked(p, turns[m..], day, DEFAULTS)
    decreases m - n
  {
    if n < m {
      assert turns[n..][1..] == turns[n + 1..];
      assert Do(p, turns[n].deed, DEFAULTS, turns[n].wall) == p;
      IdleUntil(p, turns, n + 1, m, day);
    }
  }

  lemma BookedAt(p: Profile, turns: seq<Turn>, n: nat, day: Day)
    requires DEFAULTS.Loaded() && n < |turns| && turns[n].deed.Ingested?
    ensures
      var q := Do(p, turns[n].deed, DEFAULTS, turns[n].wall);
      && XpBooked(p, turns[n..], day, DEFAULTS)
           == (if turns[n].wall == day then XpGained(p, q, DEFAULTS) else 0) + XpBooked(q, turns[n + 1..], day, DEFAULTS)
      && GoldBooked(p, turns[n..], day, DEFAULTS)
           == (if turns[n].wall == day then GoldGained(p, q) else 0.0) + GoldBooked(q, turns[n + 1..], day, DEFAULTS)
  {
    hide Do, XpGained, GoldGained;
    assert turns[n..][0] == turns[n] && turns[n..][1..] == turns[n + 1..];
  }

  /** A day that comes again after another one opens its spent caps again. */
  lemma ReturnOverbooks(days: seq<Day>, i: nat, j: nat, k: nat)
    requires i < j < k < |days| && days[i] == days[k] != days[j]
    ensures DEFAULTS.Loaded() && Sound(NEWCOMER, DEFAULTS) && IngestsOn(Scenario(days, i, j, k), days)
    ensures XpBooked(NEWCOMER, Scenario(days, i, j, k), days[i], DEFAULTS) == 506 > DEFAULTS.dailyXpCap
    ensures GoldBooked(NEWCOMER, Scenario(days, i, j, k), days[i], DEFAULTS) == 151.0 > DEFAULTS.dailyGoldCap
  {
    hide Do, XpBooked, GoldBooked, XpGained, GoldGained, Sound;
    NewcomerIsPlain();
    var turns, day := Scenario(days, i, j, k), days[i];
    var p1 := Do(NEWCOMER, LONG_FOCUS, DEFAULTS, day);
    var p2 := Do(p1, LATE_CHECK, DEFAULTS, days[j]);
    var p3 := Do(p2, LATE_CHECK, DEFAULTS, day);
    FocusPaysOut(NEWCOMER, day);
    CheckPaysOut(p1, days[j]);
    CheckPaysOut(p2, day);
    assert turns[0..] == turns && turns[|days|..] == [];
    IdleUntil(NEWCOMER, turns, 0, i, day);
    BookedAt(NEWCOMER, turns, i, day);
    IdleUntil(p1, turns, i + 1, j, day);
    BookedAt(p1, turns, j, day);
    IdleUntil(p2, turns, j + 1, k, day);
    BookedAt(p2, turns, k, day);
    IdleUntil(p3, turns, k + 1, |days|, day);
    NothingLeft(p3, day);
  }

  lemma NothingLeft(p: Profile, day: Day)
    requires DEFAULTS.Loaded()
    ensures XpBooked(p, [], day, DEFAULTS) == 0 && GoldBooked(p, [], day, DEFAULTS) == 0.0
  {}

  lemma DaysKeepCaps(days: seq<Day>)
    requires NoReturn(days)
    ensures KeepsXpCap(days) && KeepsGoldCap(days)
  {
    hide Sound, XpBooked, GoldBooked, NoReturn, IngestsOn;
    forall p: Profile, turns: seq<Turn>, day: Day, rates: Rates |
      rates.Loaded() && Sound(p, rates) && p.totalsDay.None? && IngestsOn(turns, days)
      ensures XpBooked(p, turns, day, rates) <= Max(0, rates.dailyXpCap)
      ensures GoldBooked(p, turns, day, rates) <= MaxR(0.0, rates.dailyGoldCap)
    {
      assert Start(p) + days == days;
      BookedAmong(p, turns, days, rates);
      CapsHold(p, turns, day, rates);
    }
  }

  /** The daily caps hold for every profile, every payload, draw and rates on exactly the lists
      of days in which no day comes again after another one. */
  lemma CapsNeedNoReturn(days: seq<Day>)
    ensures KeepsXpCap(days) <==> NoReturn(days)
    ensures KeepsGoldCap(days) <==> NoReturn(days)
  {
    hide Sound, XpBooked, GoldBooked, IngestsOn, Scenario;
    if NoReturn(days) {
      DaysKeepCaps(days);
    } else {
      var i, j, k :| 0 <= i < j < k < |days| && days[i] == days[k] && days[j] != days[i];
      ReturnOverbooks(days, i, j, k);
    }
  }

  /** The case the code meets: a direct check that read its day before it waited for the profile,
      and gets it only after something was booked on the next day. */
  lemma HeldUpOverMidnight(day: Day)
    ensures DEFAULTS.Loaded() && Sound(NEWCOMER, DEFAULTS)
    ensures
      var turns := [Turn(LONG_FOCUS, day), Turn(LATE_CHECK, day + 1), Turn(LATE_CHECK, day)];
      && XpBooked(NEWCOMER, turns, day, DEFAULTS) == DEFAULTS.dailyXpCap + 6
      && GoldBooked(NEWCOMER, turns, day, DEFAULTS) == DEFAULTS.dailyGoldCap + 1.0
  {
    var days := [day, day + 1, day];
    assert Scenario(days, 0, 1, 2) == [Turn(LONG_FOCUS, day), Turn(LATE_CHECK, day + 1), Turn(LATE_CHECK, day)];
    hide Sound, XpBooked, GoldBooked, Scenario;
    ReturnOverbooks(days, 0, 1, 2);
  }
}
