/** Free time in the working window: clip, sort, one sweep over the intervals. Instants are
    whole seconds UTC; an event's day is the one its start falls on in its own offset. */
module Connector {
  import opened Basics

  datatype CalendarEvent = CalendarEvent(start: int, end: int, offset: int)

  datatype Interval = Interval(lo: int, hi: int)

  /** None is the ValueError of an hour that is not on the clock. */
  type Minutes = Option<int>

  /** The instant a clock hour of the event's local start day falls on. */
  function AtHour(e: CalendarEvent, hour: int): int {
    (e.start + e.offset) / DAY * DAY + hour * HOUR - e.offset
  }

  predicate OnClock(hour: int) { 0 <= hour <= 23 }

  function Clipped(e: CalendarEvent, startHour: int, endHour: int): Interval {
    Interval(Max(e.start, AtHour(e, startHour)), Min(e.end, AtHour(e, endHour)))
  }

  // --- What it is to be busy ------------------------------------------------------------------

  predicate Covers(iv: Interval, t: int) { iv.lo <= t < iv.hi }

  /** A well-formed event keeps its owner busy at t inside the window of its start day. */
  predicate BusyWith(e: CalendarEvent, startHour: int, endHour: int, t: int) {
    e.start <= t < e.end && AtHour(e, startHour) <= t < AtHour(e, endHour)
  }

  function Range(lo: int, hi: int): (s: set<int>)
    ensures forall t :: t in s <==> lo <= t < hi
    ensures |s| == Max(0, hi - lo)
    decreases hi - lo
  {
    if lo >= hi then {} else Range(lo, hi - 1) + {hi - 1}
  }

  predicate Busy(events: seq<CalendarEvent>, startHour: int, endHour: int, t: int) {
    exists e :: e in events && BusyWith(e, startHour, endHour, t)
  }

  lemma BusyMore(events: seq<CalendarEvent>, e: CalendarEvent, startHour: int, endHour: int, t: int)
    ensures Busy(events + [e], startHour, endHour, t) <==>
              Busy(events, startHour, endHour, t) || BusyWith(e, startHour, endHour, t)
  {
    if Busy(events + [e], startHour, endHour, t) {
      var x :| x in events + [e] && BusyWith(x, startHour, endHour, t);
      assert x in events || x == e;
    }
    if Busy(events, startHour, endHour, t) {
      var x :| x in events && BusyWith(x, startHour, endHour, t);
      assert x in events + [e];
    }
    if BusyWith(e, startHour, endHour, t) { assert e in events + [e]; }
  }

  /** One more event adds the range of its clipped interval. */
  lemma AddBusy(events: seq<CalendarEvent>, e: CalendarEvent, startHour: int, endHour: int, before: set<int>)
    requires forall t :: t in before <==> Busy(events, startHour, endHour, t)
    ensures
      var iv := Clipped(e, startHour, endHour);
      forall t :: t in before + Range(iv.lo, iv.hi) <==> Busy(events + [e], startHour, endHour, t)
  {
    var iv := Clipped(e, startHour, endHour);
    forall t ensures t in before + Range(iv.lo, iv.hi) <==> Busy(events + [e], startHour, endHour, t) {
      BusyMore(events, e, startHour, endHour, t);
      assert iv.lo <= t < iv.hi <==> BusyWith(e, startHour, endHour, t);
    }
  }

  /** The busy seconds of a list of events. */
  function BusySeconds(events: seq<CalendarEvent>, startHour: int, endHour: int): (s: set<int>)
    ensures forall t :: t in s <==> Busy(events, startHour, endHour, t)
  {
    if events == [] then {}
    else
      var init, e := events[..|events| - 1], events[|events| - 1];
      var iv := Clipped(e, startHour, endHour);
      var before := BusySeconds(init, startHour, endHour);
      AddBusy(init, e, startHour, endHour, before);
      assert events == init + [e];
      before + Range(iv.lo, iv.hi)
  }

  lemma BusyNext(events: seq<CalendarEvent>, e: CalendarEvent, startHour: int, endHour: int)
    ensures
      var iv := Clipped(e, startHour, endHour);
      BusySeconds(events + [e], startHour, endHour) == BusySeconds(events, startHour, endHour) + Range(iv.lo, iv.hi)
  {
    assert (events + [e])[..|events|] == events;
  }

  /** round(seconds / 60), half to even. */
  function RoundMinutes(seconds: nat): nat {
    var q, r := seconds / 60, seconds % 60;
    if r < 30 || (r == 30 && q % 2 == 0) then q else q + 1
  }

  /** The free minutes, said outright: the window less the measure of the busy time. */
  function FreeMinutes(events: seq<CalendarEvent>, startHour: int, endHour: int): Minutes {
    if endHour <= startHour then Some(0)
    else if (exists e :: e in events && e.start < e.end) && !(OnClock(startHour) && OnClock(endHour)) then None
    else Some(Max(0, (endHour - startHour) * 60 - RoundMinutes(|BusySeconds(events, startHour, endHour)|)))
  }

  // --- Intervals -----------------------------------------------------------------------------

  predicate Covered(s: seq<Interval>, t: int) { exists iv :: iv in s && Covers(iv, t) }

  lemma CoveredMore(s: seq<Interval>, iv: Interval, t: int)
    ensures Covered(s + [iv], t) <==> Covered(s, t) || Covers(iv, t)
  {
    if Covered(s + [iv], t) {
      var x :| x in s + [iv] && Covers(x, t);
      assert x in s || x == iv;
    }
    if Covered(s, t) {
      var x :| x in s && Covers(x, t);
      assert x in s + [iv];
    }
    if Covers(iv, t) { assert iv in s + [iv]; }
  }

  function Union(s: seq<Interval>): (u: set<int>)
    ensures forall t :: t in u <==> Covered(s, t)
  {
    if s == [] then {}
    else
      var init, last := s[..|s| - 1], s[|s| - 1];
      var u := Union(init) + Range(last.lo, last.hi);
      assert forall t :: t in u <==> Covered(s, t) by {
        assert s == init + [last];
        forall t ensures t in u <==> Covered(s, t) { CoveredMore(init, last, t); }
      }
      u
  }

  lemma UnionNext(s: seq<Interval>, iv: Interval)
    ensures Union(s + [iv]) == Union(s) + Range(iv.lo, iv.hi)
  {
    assert (s + [iv])[..|s|] == s;
  }

  predicate NotAfter(a: Interval, b: Interval) { a.lo < b.lo || (a.lo == b.lo && a.hi <= b.hi) }

  ghost predicate Ascending(s: seq<Interval>) { forall i, j :: 0 <= i < j < |s| ==> NotAfter(s[i], s[j]) }

  function Insert(s: seq<Interval>, x: Interval): seq<Interval> {
    if s == [] || NotAfter(s[|s| - 1], x) then s + [x] else Insert(s[..|s| - 1], x) + [s[|s| - 1]]
  }

  function Sorted(s: seq<Interval>): seq<Interval> {
    if s == [] then [] else Insert(Sorted(s[..|s| - 1]), s[|s| - 1])
  }

  lemma AscendingLast(s: seq<Interval>, x: Interval)
    requires Ascending(s) && forall y :: y in s ==> NotAfter(y, x)
    ensures Ascending(s + [x])
  {
    forall i, j | 0 <= i < j < |s + [x]| ensures NotAfter((s + [x])[i], (s + [x])[j]) {
      if j == |s| { assert s[i] in s; }
    }
  }

  lemma {:induction false} InsertLaw(s: seq<Interval>, x: Interval)
    requires Ascending(s)
    ensures Ascending(Insert(s, x))
    ensures forall y :: y in Insert(s, x) <==> y in s || y == x
  {
    if s == [] {
    } else if NotAfter(s[|s| - 1], x) {
      forall y | y in s ensures NotAfter(y, x) {
        var i :| 0 <= i < |s| && s[i] == y;
        if i < |s| - 1 { assert NotAfter(s[i], s[|s| - 1]); }
      }
      AscendingLast(s, x);
    } else {
      var init, last := s[..|s| - 1], s[|s| - 1];
      assert s == init + [last];
      InsertLaw(init, x);
      forall y | y in Insert(init, x) ensures NotAfter(y, last) {
        if y in init { var i :| 0 <= i < |init| && init[i] == y; assert NotAfter(s[i], s[|s| - 1]); }
      }
      AscendingLast(Insert(init, x), last);
    }
  }

  lemma {:induction false} SortedLaw(s: seq<Interval>)
    ensures Ascending(Sorted(s)) && forall y :: y in Sorted(s) <==> y in s
  {
    if s != [] {
      var init := s[..|s| - 1];
      assert s == init + [s[|s| - 1]];
      SortedLaw(init);
      InsertLaw(Sorted(init), s[|s| - 1]);
    }
  }

  // --- The sweep -------------------------------------------------------------------------------

  /** `end` is where the seconds swept so far end, and everything from the last start up to it
      is covered. */
  ghost predicate Swept(s: seq<Interval>, end: int) {
    && (forall t :: t in Union(s) ==> t < end)
    && (s != [] ==> forall t :: s[|s| - 1].lo <= t < end ==> t in Union(s))
  }

  /** The seconds an interval adds lie past the end reached so far. */
  lemma SweepAdds(s: seq<Interval>, next: Interval, end: int)
    requires Ascending(s + [next]) && Swept(s, end) && next.lo < next.hi
    ensures
      var lo := if s == [] || next.lo > end then next.lo else end;
      Union(s + [next]) == Union(s) + Range(lo, next.hi) && Union(s) !! Range(lo, next.hi)
  {
    hide Covered, Union;
    if s == [] { NothingYet(0, 0); } else { assert NotAfter((s + [next])[|s| - 1], (s + [next])[|s|]); }
    UnionNext(s, next);
  }

  lemma DisjointSize(a: set<int>, b: set<int>)
    requires a !! b
    ensures |a + b| == |a| + |b|
  {}

  /** Where the sweep has got to after one more interval. */
  function Reach(s: seq<Interval>, next: Interval, end: int): int {
    if s == [] || next.lo > end then next.hi else Max(end, next.hi)
  }

  lemma SweepReach(s: seq<Interval>, next: Interval, end: int)
    requires Ascending(s + [next]) && Swept(s, end) && next.lo < next.hi
    ensures Swept(s + [next], Reach(s, next, end))
  {
    hide Covered, Union;
    UnionNext(s, next);
    if s == [] { NothingYet(0, 0); } else { assert NotAfter((s + [next])[|s| - 1], (s + [next])[|s|]); }
  }

  lemma SweepNext(s: seq<Interval>, next: Interval, end: int)
    requires Ascending(s + [next]) && Swept(s, end) && next.lo < next.hi
    ensures
      |Union(s + [next])| ==
      |Union(s)| + if s == [] || next.lo > end then next.hi - next.lo else Max(0, next.hi - end)
    ensures Swept(s + [next], Reach(s, next, end))
  {
    hide Covered, Union, Swept, Ascending, Range;
    SweepAdds(s, next, end);
    SweepReach(s, next, end);
    DisjointSize(Union(s), Range(if s == [] || next.lo > end then next.lo else end, next.hi));
  }

  lemma PrefixAscending(s: seq<Interval>, i: nat)
    requires Ascending(s) && i <= |s|
    ensures Ascending(s[..i])
  {}

  /** Clips the events to their windows; None when an hour is off the clock. */
  method ClipAll(events: seq<CalendarEvent>, startHour: int, endHour: int) returns (result: Option<seq<Interval>>)
    ensures result.None? <==>
              (exists e :: e in events && e.start < e.end) && !(OnClock(startHour) && OnClock(endHour))
    ensures result.Some? ==>
              && (forall iv :: iv in result.value ==> iv.lo < iv.hi)
              && Union(result.value) == BusySeconds(events, startHour, endHour)
  {
    hide Union, BusySeconds;
    var intervals: seq<Interval> := [];
    NothingYet(startHour, endHour);
    var i := 0;
    while i < |events|
      invariant 0 <= i <= |events|
      invariant forall iv :: iv in intervals ==> iv.lo < iv.hi
      invariant Union(intervals) == BusySeconds(events[..i], startHour, endHour)
      invariant (OnClock(startHour) && OnClock(endHour)) || forall e :: e in events[..i] ==> e.start >= e.end
    {
      hide Busy, Covered, AtHour;
      var e := events[i];
      assert events[..i + 1] == events[..i] + [e];
      var iv := Clipped(e, startHour, endHour);
      BusyNext(events[..i], e, startHour, endHour);
      UnionNext(intervals, iv);
      if e.start < e.end {
        if !OnClock(startHour) || !OnClock(endHour) {
          assert e in events;
          return None;
        }
        if iv.hi > iv.lo {
          intervals := intervals + [iv];
        }
      }
      i := i + 1;
    }
    assert events[..i] == events;
    return Some(intervals);
  }

  lemma NothingYet(startHour: int, endHour: int)
    ensures Union([]) == {} == BusySeconds([], startHour, endHour)
  {}

  /** One pass over the sorted intervals measures their union. */
  method Measure(ordered: seq<Interval>) returns (covered: nat)
    requires Ascending(ordered) && forall iv :: iv in ordered ==> iv.lo < iv.hi
    ensures covered == |Union(ordered)|
  {
    hide Covered, Union, Swept, Ascending;
    covered := 0;
    NothingYet(0, 0);
    var currentEnd: Option<int> := None;
    var i := 0;
    while i < |ordered|
      invariant 0 <= i <= |ordered|
      invariant currentEnd.None? <==> i == 0
      invariant covered == |Union(ordered[..i])|
      invariant i > 0 ==> Swept(ordered[..i], currentEnd.value)
    {
      var iv := ordered[i];
      assert iv in ordered && ordered[..i + 1] == ordered[..i] + [iv];
      PrefixAscending(ordered, i + 1);
      if i == 0 { NothingSwept(iv.lo); }
      SweepNext(ordered[..i], iv, if i == 0 then iv.lo else currentEnd.value);
      if currentEnd.None? || iv.lo > currentEnd.value {
        covered := covered + (iv.hi - iv.lo);
        currentEnd := Some(iv.hi);
      } else if iv.hi > currentEnd.value {
        covered := covered + (iv.hi - currentEnd.value);
        currentEnd := Some(iv.hi);
      }
      i := i + 1;
    }
    assert ordered[..i] == ordered;
  }

  lemma NothingSwept(end: int)
    ensures Swept([], end)
  {}

  lemma SameUnion(a: seq<Interval>, b: seq<Interval>)
    requires forall iv :: iv in a <==> iv in b
    ensures Union(a) == Union(b)
  {
    forall t ensures Covered(a, t) <==> Covered(b, t) {}
  }

  /** Subtracts the union of the events, clipped to the window, from the window. */
  method AvailableMinutes(events: seq<CalendarEvent>, startHour: int, endHour: int) returns (free: Minutes)
    ensures free == FreeMinutes(events, startHour, endHour)
  {
    hide Union, BusySeconds;
    if endHour <= startHour {
      return Some(0);
    }
    var total := (endHour - startHour) * 60;
    var intervals := ClipAll(events, startHour, endHour);
    if intervals.None? {
      return None;
    }
    SortedLaw(intervals.value);
    SameUnion(Sorted(intervals.value), intervals.value);
    var covered := Measure(Sorted(intervals.value));
    return Some(Max(0, total - RoundMinutes(covered)));
  }

  // --- What the number means -----------------------------------------------------------------

  lemma BusyGrows(xs: seq<CalendarEvent>, ys: seq<CalendarEvent>, startHour: int, endHour: int)
    requires forall e :: e in xs ==> e in ys
    ensures BusySeconds(xs, startHour, endHour) <= BusySeconds(ys, startHour, endHour)
  {
    hide BusySeconds, BusyWith;
    forall t | t in BusySeconds(xs, startHour, endHour) ensures t in BusySeconds(ys, startHour, endHour) {
      assert Busy(xs, startHour, endHour, t) && Busy(ys, startHour, endHour, t);
    }
  }

  /** Input order and repeats do not matter. */
  lemma OrderIrrelevant(xs: seq<CalendarEvent>, ys: seq<CalendarEvent>, startHour: int, endHour: int)
    requires forall e :: e in xs <==> e in ys
    ensures FreeMinutes(xs, startHour, endHour) == FreeMinutes(ys, startHour, endHour)
  {
    hide BusySeconds;
    BusyGrows(xs, ys, startHour, endHour);
    BusyGrows(ys, xs, startHour, endHour);
    assert BusySeconds(xs, startHour, endHour) == BusySeconds(ys, startHour, endHour);
  }

  lemma RoundGrows(a: nat, b: nat)
    requires a <= b
    ensures RoundMinutes(a) <= RoundMinutes(b)
  {}

  /** More events never free time. */
  lemma MoreEventsLessTime(xs: seq<CalendarEvent>, ys: seq<CalendarEvent>, startHour: int, endHour: int)
    requires forall e :: e in xs ==> e in ys
    requires FreeMinutes(xs, startHour, endHour).Some? && FreeMinutes(ys, startHour, endHour).Some?
    ensures FreeMinutes(ys, startHour, endHour).value <= FreeMinutes(xs, startHour, endHour).value
  {
    hide BusySeconds;
    var a, b := BusySeconds(xs, startHour, endHour), BusySeconds(ys, startHour, endHour);
    BusyGrows(xs, ys, startHour, endHour);
    SubsetSize(a, b);
    RoundGrows(|a|, |b|);
  }

  /** Events that all start on one local day never overdraw the window, so nothing is lost to
      the floor at zero: busy and free minutes add up to the window. */
  lemma OneDayAddsUp(events: seq<CalendarEvent>, startHour: int, endHour: int, midnight: int)
    requires OnClock(startHour) && OnClock(endHour) && startHour < endHour
    requires forall e :: e in events ==> AtHour(e, 0) == midnight
    ensures FreeMinutes(events, startHour, endHour)
         == Some((endHour - startHour) * 60 - RoundMinutes(|BusySeconds(events, startHour, endHour)|))
  {
    hide BusySeconds, RoundMinutes;
    var busy := BusySeconds(events, startHour, endHour);
    var window := Range(midnight + startHour * HOUR, midnight + endHour * HOUR);
    forall t | Busy(events, startHour, endHour, t) ensures t in window {
      var e :| e in events && BusyWith(e, startHour, endHour, t);
      HoursOfOneDay(e, startHour);
      HoursOfOneDay(e, endHour);
    }
    SubsetSize(busy, window);
    RoundGrows(|busy|, (endHour - startHour) * HOUR);
    WholeMinutes((endHour - startHour) * 60);
  }

  lemma HoursOfOneDay(e: CalendarEvent, hour: int)
    ensures AtHour(e, hour) == AtHour(e, 0) + hour * HOUR
  {}

  lemma WholeMinutes(minutes: nat)
    ensures RoundMinutes(minutes * 60) == minutes
  {}

  /** Whole minutes nearest to the seconds, the even one of two. */
  lemma RoundLaw(seconds: nat)
    ensures
      var m := RoundMinutes(seconds);
      60 * m - 30 <= seconds <= 60 * m + 30 && (seconds in {60 * m - 30, 60 * m + 30} ==> m % 2 == 0)
  {}

  lemma MidnightIs(e: CalendarEvent, midnight: int)
    requires midnight <= e.start < midnight + 86400 && (midnight + e.offset) % 86400 == 0
    ensures AtHour(e, 0) == midnight
  {
    assert (e.start + e.offset) / DAY == (midnight + e.offset) / DAY;
  }

  /** One event takes from the window what it covers of it, on the day it starts where it is held. */
  lemma OneEventLaw(e: CalendarEvent, startHour: int, endHour: int, midnight: int)
    requires 0 <= startHour < endHour <= 23 && e.start < e.end
    requires midnight <= e.start < midnight + 86400 && (midnight + e.offset) % 86400 == 0
    ensures
      var taken := Min(e.end, midnight + 3600 * endHour) - Max(e.start, midnight + 3600 * startHour);
      FreeMinutes([e], startHour, endHour) == Some(60 * (endHour - startHour) - RoundMinutes(Max(0, taken)))
  {
    hide RoundMinutes, BusySeconds, AtHour, FreeMinutes;
    MidnightIs(e, midnight);
    HoursOfOneDay(e, startHour);
    HoursOfOneDay(e, endHour);
    NothingYet(startHour, endHour);
    BusyNext([], e, startHour, endHour);
    assert [] + [e] == [e];
    var iv := Clipped(e, startHour, endHour);
    assert {} + Range(iv.lo, iv.hi) == Range(iv.lo, iv.hi);
    OneDayAddsUp([e], startHour, endHour, midnight);
  }
}
