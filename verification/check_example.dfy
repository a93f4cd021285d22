/** A check that really falls short: two items of a "trivial" daily under the default rates. */
module CheckExample {
  import opened Basics
  import opened Economy
  import opened EconomyLaws
  import opened Career
  import opened CheckPayout
  import opened Recurrence
  import C = Checks

  const TRIVIAL := 0.1

  const TWO_ITEMS := C.Daily(Some(EveryDay(None)), 0, true, 0, Some(TRIVIAL), {1, 2}, map[], map[], [])

  const PLAIN_ROLL := C.Draw(0.5, 0, 0, NO_GEAR)

  /** No stats, and nearly all of the day's XP cap still open. */
  predicate Plain(p: Profile) { p.stats == [0, 0, 0, 0] && SyncToday(p, 0).xpToday <= 10 }

  lemma PlainBase(p: Profile)
    requires Plain(p)
    ensures DEFAULTS.Loaded() && Effective(p, STR, NO_GEAR) == 0
    ensures CritMult(0.5, 0, DEFAULTS) == 1.0 && XpBase(p, TRIVIAL, 1.0, DEFAULTS, NO_GEAR) == 0.6
  {
    assert Effective(p, INT, NO_GEAR) == 0;
  }

  /** One share of a day that has paid no XP pays the share of 0.6 XP, rounded. */
  lemma PlainShare(d: C.Daily, p: Profile, share: real)
    requires d.difficulty == Some(TRIVIAL) && Plain(p) && Sound(p, DEFAULTS) && C.WithinOne(d, 0)
    requires 0.0 < share <= 1.0 && C.PaidTotals(d.rows, 0).share + share <= 1.0 && C.PaidTotals(d.rows, 0).xp == 0
    requires SyncToday(p, 0).xpToday <= 9
    ensures DEFAULTS.Loaded()
    ensures
      var outcome := C.ApplyShare(d, p, share, 0, DEFAULTS, PLAIN_ROLL);
      && outcome.Scored?
      && C.PaidTotals(outcome.daily.rows, 0).xp == Min(1, RoundHalfUp(Times(0.6, share)))
      && C.PaidTotals(outcome.daily.rows, 0).share == C.PaidTotals(d.rows, 0).share + share
      && C.WithinOne(outcome.daily, 0) && outcome.daily == d.(rows := outcome.daily.rows)
      && Plain(outcome.profile) && Sound(outcome.profile, DEFAULTS)
      && Standing(outcome.profile, DEFAULTS) - Standing(p, DEFAULTS) == Min(1, RoundHalfUp(Times(0.6, share)))
      && SyncToday(outcome.profile, 0).xpToday
           == SyncToday(p, 0).xpToday + Min(1, RoundHalfUp(Times(0.6, share)))
  {
    hide C.PaidTotals, CheckGold, GoldBase, XpBase, CheckXp, Score, CritMult, Sound, RoundHalfUp, Times, Effective,
      PayFragment, Standing;
    PlainBase(p);
    var paid := C.PaidTotals(d.rows, 0);
    ScorePaysFragment(p, paid, share, d.streak, TRIVIAL, DEFAULTS, 0.5, 0, 0, NO_GEAR);
    C.SharePays(d, p, share, 0, DEFAULTS, PLAIN_ROLL);
    C.ApplyShareLaw(d, p, share, 0, DEFAULTS, PLAIN_ROLL);
    var f := FragmentOf(p, share, d.streak, TRIVIAL, 1.0, DEFAULTS, 0, NO_GEAR);
    PlainRoom(p);
    FragmentXp(paid, f, 0.6);
  }

  lemma PlainRoom(p: Profile)
    requires Plain(p)
    ensures RoundHalfUp(0.6) == 1 && DEFAULTS.dailyXpCap - SyncToday(p, 0).xpToday >= 1
  {}

  lemma HalfRounds()
    ensures RoundHalfUp(Times(0.6, 0.5)) == 0 && RoundHalfUp(Times(0.6, 1.0)) == 1
  {}

  lemma NothingPaidYet()
    ensures C.WithinOne(TWO_ITEMS, 0) && C.PaidTotals([], 0) == NOTHING
    ensures Sound(NEWCOMER, DEFAULTS) && Plain(NEWCOMER)
  {
    assert XpToNext(1, DEFAULTS) >= 1;
  }

  lemma FirstItem()
    ensures
      var m := C.Transition(map[], 2, C.Item(1), true);
      m == C.Moved(map[C.Item(1) := true], 0.5, false, false, None)
  {
    assert C.DoneItems(map[]) == {};
  }

  lemma SecondItem()
    ensures
      var m := C.Transition(map[C.Item(1) := true], 2, C.Item(2), true);
      m == C.Moved(map[C.Item(1) := true, C.Item(2) := true, C.Whole := true], 0.5, true, false, None)
  {
    assert C.DoneItems(map[C.Item(1) := true]) == {1};
  }

  lemma WholeAtOnce()
    ensures C.Transition(map[], 2, C.Whole, true) == C.Moved(map[C.Whole := true], 1.0, true, false, None)
  {
    assert C.DoneItems(map[]) == {};
  }

  function Tick(d: C.Daily, p: Profile, slot: C.Slot): C.Outcome
    requires d.Parsable()
  {
    C.ScoreCheck(d, p, C.Request(slot, 0, C.Absent), DEFAULTS, PLAIN_ROLL)
  }

  /** Both items of the checklist are checked, the day is complete and its share paid in full,
      and it has paid no XP at all; the whole-daily check would have paid 1. */
  lemma TwoItemsPayNoXp()
    ensures
      var first := Tick(TWO_ITEMS, NEWCOMER, C.Item(1));
      && first.Scored? && first.daily.Parsable()
      && var second := Tick(first.daily, first.profile, C.Item(2));
         && second.Scored?
         && C.IsDone(C.MarksOn(second.daily, 0), C.Whole)
         && C.PaidTotals(second.daily.rows, 0).share == 1.0
         && C.PaidTotals(second.daily.rows, 0).xp == 0
         && Standing(second.profile, DEFAULTS) == Standing(NEWCOMER, DEFAULTS)
    ensures
      var whole := Tick(TWO_ITEMS, NEWCOMER, C.Whole);
      whole.Scored? && C.PaidTotals(whole.daily.rows, 0).xp == 1
  {
    hide C.ApplyShare, C.PaidTotals, C.Transition, RoundHalfUp, Standing, Sound, Times;
    NothingPaidYet();
    HalfRounds();
    assert |{1, 2}| == 2;
    FirstItem();
    var one := TWO_ITEMS.(marks := map[0 := map[C.Item(1) := true]]);
    PlainShare(one, NEWCOMER, 0.5);
    var first := Tick(TWO_ITEMS, NEWCOMER, C.Item(1));
    assert first == C.ApplyShare(one, NEWCOMER, 0.5, 0, DEFAULTS, PLAIN_ROLL);
    SecondItem();
    var both := first.daily.(
      marks := map[0 := map[C.Item(1) := true, C.Item(2) := true, C.Whole := true]], streak := 1);
    assert C.MarksOn(first.daily, 0) == map[C.Item(1) := true];
    assert first.daily.marks[0 := both.marks[0]] == both.marks;
    PlainShare(both, first.profile, 0.5);
    assert Tick(first.daily, first.profile, C.Item(2))
        == C.ApplyShare(both, first.profile, 0.5, 0, DEFAULTS, PLAIN_ROLL);
    WholeAtOnce();
    var done := TWO_ITEMS.(marks := map[0 := map[C.Whole := true]], streak := 1);
    PlainShare(done, NEWCOMER, 1.0);
    assert Tick(TWO_ITEMS, NEWCOMER, C.Whole) == C.ApplyShare(done, NEWCOMER, 1.0, 0, DEFAULTS, PLAIN_ROLL);
  }
}
