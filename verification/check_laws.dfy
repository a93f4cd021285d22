/** What an accepted check leaves on the day, and which requests are accepted: said over mark
    rows, items and ledger rows, by no function that scoring a check is made of. */
module CheckLaws {
  import opened Basics
  import opened Economy
  import opened EconomyLaws
  import opened Career
  import opened CheckPayout
  import opened Recurrence
  import opened Checks

  predicate Checked(marks: Marks, slot: Slot) { slot in marks && marks[slot] }

  function DayOf(d: Daily, date: Day): Marks { if date in d.marks then d.marks[date] else map[] }

  /** Every mark but those of `moved` is as it was. */
  ghost predicate SameBut(before: Marks, after: Marks, moved: set<Slot>) {
    forall s :: s !in moved ==> (s in after <==> s in before) && (s in before ==> after[s] == before[s])
  }

  /** After an accepted uncheck neither the slot nor, for an item, the whole day is done; after an
      accepted check the slot is, and the whole day is exactly when it was asked for or every item
      is. A request that has nothing to do moves nothing. */
  ghost predicate MarksMoved(before: Marks, items: set<int>, slot: Slot, done: bool, after: Marks) {
    if !done then
      if !Checked(before, slot) then after == before
      else
        && slot in after && !after[slot]
        && (slot.Item? && Checked(before, Whole) ==> Whole in after && !after[Whole])
        && SameBut(before, after, if slot.Item? && Checked(before, Whole) then {slot, Whole} else {slot})
    else if Checked(before, Whole) || Checked(before, slot) then after == before
    else
      var all := slot.Item? && forall id :: id in items ==> Checked(after, Item(id));
      && Checked(after, slot)
      && (Checked(after, Whole) <==> slot.Whole? || all)
      && SameBut(before, after, if all then {slot, Whole} else {slot})
  }

  /** What the row asks for: a part per item the first time, and what the items have not had the
      first time the whole day is checked; nothing for a mark that was there before. */
  ghost predicate Asks(before: Marks, items: set<int>, slot: Slot, done: bool, share: real) {
    if !done || Checked(before, Whole) || slot in before then share == 0.0
    else if slot.Item? then |items| > 0 && share == 1.0 / |items| as real
    else if |items| == 0 then share == 1.0
    else
      var open := set id | id in items && !Checked(before, Item(id));
      share == |open| as real / |items| as real
  }

  lemma DoneItemsAre(d: Daily, date: Day)
    requires MarksFit(d)
    ensures DoneItems(MarksOn(d, date)) == set id | id in d.items && Checked(DayOf(d, date), Item(id))
    ensures DoneItems(MarksOn(d, date)) <= d.items
  {
    var marks := MarksOn(d, date);
    DoneItemsFit(d, date);
    forall id ensures id in DoneItems(marks) <==> id in d.items && Checked(marks, Item(id)) {
      if Checked(marks, Item(id)) { assert Item(id) in marks && Item(id).id == id; }
    }
  }

  /** All items are done once one more is, exactly when one fewer than all were. */
  lemma AllDone(items: set<int>, done: set<int>, id: int)
    requires done <= items && id in items && id !in done
    ensures |done| + 1 >= |items| <==> done + {id} == items
  {
    SubsetSize(done + {id}, items);
    if |done| + 1 >= |items| { SameSize(done + {id}, items); }
  }

  lemma SameSize(a: set<int>, b: set<int>)
    requires a <= b && |a| >= |b|
    ensures a == b
  {
    assert b == a + (b - a);
    assert |b - a| == 0;
  }

  lemma OpenItems(items: set<int>, done: set<int>)
    requires done <= items
    ensures |items - done| == |items| - |done|
  {
    assert items == done + (items - done);
  }

  lemma UncheckMoves(before: Marks, items: set<int>, slot: Slot)
    requires slot.Item? ==> |items| > 0
    ensures MarksMoved(before, items, slot, false, Transition(before, |items|, slot, false).marks)
  {
    hide DoneItems;
  }

  lemma WholeMoves(before: Marks, items: set<int>)
    ensures MarksMoved(before, items, Whole, true, Transition(before, |items|, Whole, true).marks)
  {
    hide DoneItems;
  }

  lemma ItemMoves(d: Daily, date: Day, id: int)
    requires MarksFit(d) && id in d.items && |d.items| > 0
    requires !Checked(DayOf(d, date), Whole) && !Checked(DayOf(d, date), Item(id))
    ensures
      var m := Transition(MarksOn(d, date), |d.items|, Item(id), true);
      MarksMoved(DayOf(d, date), d.items, Item(id), true, m.marks)
  {
    hide DoneItems;
    var before := MarksOn(d, date);
    var m := Transition(before, |d.items|, Item(id), true);
    DoneItemsAre(d, date);
    var doneItems := DoneItems(before);
    AllDone(d.items, doneItems, id);
    forall i ensures i in d.items && Checked(m.marks, Item(i)) <==> i in doneItems + {id} {}
  }

  lemma TransitionAsks(d: Daily, date: Day, slot: Slot, done: bool)
    requires MarksFit(d) && (slot.Item? ==> |d.items| > 0)
    ensures Asks(DayOf(d, date), d.items, slot, done, Transition(MarksOn(d, date), |d.items|, slot, done).share)
  {
    hide DoneItems;
    var before := MarksOn(d, date);
    DoneItemsAre(d, date);
    OpenItems(d.items, DoneItems(before));
    assert (set id | id in d.items && !Checked(before, Item(id))) == d.items - DoneItems(before);
  }

  lemma NothingMoves(before: Marks, items: set<int>, slot: Slot)
    requires slot.Item? ==> |items| > 0
    requires Checked(before, Whole) || Checked(before, slot)
    ensures MarksMoved(before, items, slot, true, Transition(before, |items|, slot, true).marks)
  {
    hide DoneItems;
  }

  lemma TransitionMoves(d: Daily, date: Day, slot: Slot, done: bool)
    requires MarksFit(d) && (slot.Item? ==> slot.id in d.items && |d.items| > 0)
    ensures MarksMoved(DayOf(d, date), d.items, slot, done, Transition(MarksOn(d, date), |d.items|, slot, done).marks)
  {
    hide Transition, MarksMoved;
    var before := MarksOn(d, date);
    if !done {
      UncheckMoves(before, d.items, slot);
    } else if Checked(before, Whole) || Checked(before, slot) {
      NothingMoves(before, d.items, slot);
    } else if slot.Whole? {
      WholeMoves(before, d.items);
    } else {
      ItemMoves(d, date, slot.id);
    }
  }

  // --- Which requests are accepted -------------------------------------------------------------------

  predicate WantsDone(req: Request) { req.claim.Given? ==> req.claim.done }

  /** Whether anything is still to be paid for the mark. */
  ghost predicate Owed(d: Daily, req: Request) {
    && WantsDone(req) && !Checked(DayOf(d, req.date), Whole) && req.slot !in DayOf(d, req.date)
    && (req.slot.Whole? && |d.items| > 0 ==>
          exists id :: id in d.items && !Checked(DayOf(d, req.date), Item(id)))
    && PaidTotals(d.rows, req.date).share < 1.0
  }

  lemma AsksSomething(before: Marks, items: set<int>, slot: Slot, share: real)
    requires Asks(before, items, slot, true, share)
    ensures share > 0.0 <==>
      && !Checked(before, Whole) && slot !in before
      && (slot.Whole? && |items| > 0 ==> exists id :: id in items && !Checked(before, Item(id)))
  {
    if slot.Whole? && |items| > 0 && !Checked(before, Whole) && slot !in before {
      var open := set id | id in items && !Checked(before, Item(id));
      Quotient(|open| as real, |items| as real);
      if id :| id in items && !Checked(before, Item(id)) {
        assert id in open;
        assert share * |items| as real == |open| as real;
      } else {
        assert open == {};
      }
    }
  }

  lemma OwedIs(d: Daily, req: Request)
    requires MarksFit(d) && (req.slot.Item? ==> |d.items| > 0)
    ensures
      var m := Transition(MarksOn(d, req.date), |d.items|, req.slot, Wanted(req.claim));
      Owed(d, req) <==>
        m.reason.None? && !m.uncheck && ClampShare(m.share, PaidTotals(d.rows, req.date).share) > 0.0
  {
    hide PaidTotals, DoneItems, Asks, Transition, MarksFit;
    var before := MarksOn(d, req.date);
    TransitionAsks(d, req.date, req.slot, Wanted(req.claim));
    Unmoved(before, |d.items|, req.slot, Wanted(req.claim));
    if Wanted(req.claim) {
      AsksSomething(before, d.items, req.slot, Transition(before, |d.items|, req.slot, true).share);
    }
  }

  lemma Unmoved(before: Marks, n: nat, slot: Slot, done: bool)
    requires slot.Item? ==> n > 0
    ensures
      var m := Transition(before, n, slot, done);
      && (m.uncheck <==> !done && Checked(before, slot))
      && (m.reason.Some? <==> if done then Checked(before, Whole) || Checked(before, slot) else !Checked(before, slot))
      && (m.first <==> Whole !in before && Whole in m.marks)
  {
    hide DoneItems;
  }

  lemma ShareRefused(d: Daily, p: Profile, share: real, date: Day, rates: Rates, draw: Draw)
    requires rates.Loaded() && WithinOne(d, date) && 0.0 <= share <= 1.0
    ensures
      var outcome := ApplyShare(d, p, share, date, rates, draw);
      && (outcome.Refused? <==> ClampShare(share, PaidTotals(d.rows, date).share) > 0.0 && d.difficulty.None?)
      && (outcome.Refused? ==> outcome.why == EngineRefused)
  {
    hide PaidTotals, FragmentOf, CritMult, CheckXp, CheckGold, XpBase, GoldBase, Pay;
  }

  /** A request is refused for a malformed claim, an inactive daily, a date out of range or an item
      of another list, in this order, and last for a difficulty the engine does not know when
      there is something to pay. */
  lemma RefusalLaw(d: Daily, p: Profile, req: Request, rates: Rates, draw: Draw)
    requires rates.Loaded() && d.Parsable() && MarksFit(d) && WithinOne(d, req.date)
    ensures
      var outcome := ScoreCheck(d, p, req, rates, draw);
      var why :=
        if req.claim.Garbled? then Some(DoneMalformed)
        else if !d.active then Some(DailyInactive)
        else if !(d.anchor <= req.date <= draw.today) then Some(CheckDateOutOfRange)
        else if req.slot.Item? && req.slot.id !in d.items then Some(ItemUnresolvable)
        else if d.difficulty.None? && Owed(d, req) then Some(EngineRefused)
        else None;
      outcome.Refused? == why.Some? && (outcome.Refused? ==> outcome.why == why.value)
  {
    hide ScoreCheck, ApplyShare, PaidTotals, Transition, Owed, Credits, MarksFit;
    CheckForm(d, p, req, rates, draw);
    if Screen(d, req, draw.today).None? {
      var m := Transition(MarksOn(d, req.date), |d.items|, req.slot, Wanted(req.claim));
      DoneItemsFit(d, req.date);
      TransitionShare(MarksOn(d, req.date), |d.items|, req.slot, Wanted(req.claim));
      OwedIs(d, req);
      var moved := d.(marks := d.marks[req.date := m.marks],
                      streak := if Credits(d, m.first, req.date) then d.streak + 1 else d.streak);
      ShareRefused(moved, p, m.share, req.date, rates, draw);
    }
  }

  // --- What an accepted request does ---------------------------------------------------------------------

  /** The unit the day counts toward has been charged. */
  ghost predicate Charged(d: Daily, date: Day)
    requires d.rule.Some?
  {
    if d.rule.value.TimesPerWeek?
    then exists sunday :: sunday in d.misses && sunday % 7 == 6 && sunday - 6 <= date <= sunday
    else date in d.misses
  }

  lemma ChargedIs(d: Daily, date: Day)
    requires d.rule.Some?
    ensures Charged(d, date) <==> UnitOf(d.rule.value, date) in d.misses
  {
    if d.rule.value.TimesPerWeek? {
      forall sunday | sunday % 7 == 6 && sunday - 6 <= date <= sunday ensures sunday == WeekEnd(date) {}
      assert WeekEnd(date) % 7 == 6;
    }
  }

  /** An accepted request writes the marks of its day, one ledger row, and the streak; it raises
      the streak exactly when it completes a day of the rule for the first time and the unit of
      that day has not been charged. */
  lemma CheckLaw(d: Daily, p: Profile, req: Request, rates: Rates, draw: Draw)
    requires rates.Loaded() && d.Parsable() && MarksFit(d) && WithinOne(d, req.date)
    requires ScoreCheck(d, p, req, rates, draw).Scored?
    ensures
      var before, next := DayOf(d, req.date), ScoreCheck(d, p, req, rates, draw).daily;
      && req.date in next.marks
      && MarksMoved(before, d.items, req.slot, WantsDone(req), next.marks[req.date])
      && |next.rows| == |d.rows| + 1
      && next == d.(marks := d.marks[req.date := next.marks[req.date]], rows := d.rows + [next.rows[|d.rows|]],
                    streak := next.streak)
      && next.streak == d.streak +
           (if Whole !in before && Whole in next.marks[req.date] && d.rule.Some?
               && IsSchedulable(d.rule.value, req.date, d.anchor) && !Charged(d, req.date) then 1 else 0)
  {
    hide ScoreCheck, Transition, PaidTotals, MarksMoved, Charged, IsSchedulable, WithinOne, MarksFit;
    ScoreCheckLaw(d, p, req, rates, draw);
    SlotOnList(d, req, draw.today);
    TransitionMoves(d, req.date, req.slot, Wanted(req.claim));
    Unmoved(MarksOn(d, req.date), |d.items|, req.slot, Wanted(req.claim));
    if d.rule.Some? { ChargedIs(d, req.date); }
  }

  /** The row of an accepted request: unscored when there was nothing to do; otherwise it pays the
      share asked for as far as the day has not paid it, and the profile gets exactly the XP and
      the gold that the row says, and nothing else but its levels and counters. */
  lemma RowLaw(d: Daily, p: Profile, req: Request, rates: Rates, draw: Draw) returns (asked: real)
    requires rates.Loaded() && d.Parsable() && MarksFit(d) && WithinOne(d, req.date) && Sound(p, rates)
    requires ScoreCheck(d, p, req, rates, draw).Scored?
    ensures Asks(DayOf(d, req.date), d.items, req.slot, WantsDone(req), asked)
    ensures
      var before, outcome := DayOf(d, req.date), ScoreCheck(d, p, req, rates, draw);
      var idle := if WantsDone(req) then Checked(before, Whole) || Checked(before, req.slot)
                  else !Checked(before, req.slot);
      |outcome.daily.rows| > |d.rows|
      && var row := outcome.daily.rows[|d.rows|];
         var paid := PaidTotals(d.rows, req.date);
         && row.date == req.date && row.scored == !idle
         && row.share == MinR(asked, 1.0 - paid.share)
         && (if row.share > 0.0 then
               var ev := DailyCheck(row.share, outcome.daily.streak, paid.share, paid.xp as real, paid.gold, d.difficulty);
               Score(p, ev, rates, draw.roll, draw.pick, draw.today, draw.gear) == Some(outcome.profile)
             else outcome.profile == p)
         && row.xp == Standing(outcome.profile, rates) - Standing(p, rates)
         && row.gold == outcome.profile.gold - p.gold
  {
    hide ScoreCheck, Score, Transition, PaidTotals, Asks, Credits, Screen, MarksFit, Sound, Standing, ApplyShare, DoneItems;
    CheckForm(d, p, req, rates, draw);
    var m := Transition(MarksOn(d, req.date), |d.items|, req.slot, Wanted(req.claim));
    asked := m.share;
    TransitionAsks(d, req.date, req.slot, Wanted(req.claim));
    QuietTransition(MarksOn(d, req.date), |d.items|, req.slot, Wanted(req.claim));
    DoneItemsFit(d, req.date);
    TransitionShare(MarksOn(d, req.date), |d.items|, req.slot, Wanted(req.claim));
    Unmoved(MarksOn(d, req.date), |d.items|, req.slot, Wanted(req.claim));
    var moved := d.(marks := d.marks[req.date := m.marks],
                    streak := if Credits(d, m.first, req.date) then d.streak + 1 else d.streak);
    if m.reason.None? && !m.uncheck {
      ShareRow(moved, p, m.share, req.date, rates, draw);
    }
  }

  lemma ShareRow(d: Daily, p: Profile, share: real, date: Day, rates: Rates, draw: Draw)
    requires rates.Loaded() && WithinOne(d, date) && 0.0 <= share <= 1.0 && Sound(p, rates)
    requires ApplyShare(d, p, share, date, rates, draw).Scored?
    ensures
      var outcome, paid := ApplyShare(d, p, share, date, rates, draw), PaidTotals(d.rows, date);
      |outcome.daily.rows| == |d.rows| + 1
      && var row := outcome.daily.rows[|d.rows|];
         && outcome.daily == Record(d, row)
         && row.date == date && row.scored && row.share == MinR(share, 1.0 - paid.share)
         && (if row.share > 0.0 then
               var ev := DailyCheck(row.share, d.streak, paid.share, paid.xp as real, paid.gold, d.difficulty);
               Score(p, ev, rates, draw.roll, draw.pick, draw.today, draw.gear) == Some(outcome.profile)
             else outcome.profile == p)
         && row.xp == Standing(outcome.profile, rates) - Standing(p, rates)
         && row.gold == outcome.profile.gold - p.gold
  {
    hide Score, PaidTotals, XpBase, GoldBase, CritMult, CheckXp, CheckGold, Sound, Standing, SyncToday;
    var paid := PaidTotals(d.rows, date);
    var part := ClampShare(share, paid.share);
    if part > 0.0 {
      ScoredMeansRated(p, part, d.streak, paid, d.difficulty, rates, draw);
      ScorePaysFragment(p, paid, part, d.streak, d.difficulty.value, rates, draw.roll, draw.pick, draw.today, draw.gear);
      assert ClampShare(part, paid.share) == part;
    }
  }
}
