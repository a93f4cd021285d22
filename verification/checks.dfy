/** Check scoring of one daily: the day's marks, the ledger of what was paid, the streak. */
module Checks {
  import opened Basics
  import opened Economy
  import opened CheckPayout
  import opened Recurrence

  /** The whole-daily mark, or one checklist item's. */
  datatype Slot = Whole | Item(id: int)

  /** A day's mark rows; the value says whether the mark is done or was unchecked. */
  type Marks = map<Slot, bool>

  /** A ledger row of a check event: its day, and what it paid if it was scored. */
  datatype Row = Row(date: Day, scored: bool, share: real, xp: int, gold: real)

  /** A daily with its checklist, mark rows, miss rows (day to frozen) and check events. */
  datatype Daily = Daily(
    rule: Option<Rule>, anchor: Day, active: bool, streak: nat, difficulty: Option<real>,
    items: set<int>, marks: map<Day, Marks>, misses: map<Day, bool>, rows: seq<Row>)
  {
    predicate Parsable() { rule.Some? ==> Parsed(rule.value) }
  }

  function MarksOn(d: Daily, date: Day): Marks { if date in d.marks then d.marks[date] else map[] }

  // --- Mark transitions --------------------------------------------------------------------

  datatype Reason = NothingToUncheck | AlreadyChecked

  datatype Moved = Moved(marks: Marks, share: real, first: bool, uncheck: bool, reason: Option<Reason>)

  predicate IsDone(marks: Marks, slot: Slot) { slot in marks && marks[slot] }

  function DoneItems(marks: Marks): set<int> { set slot | slot in marks && slot.Item? && marks[slot] :: slot.id }

  function Ratio(part: int, n: nat): real
    requires n > 0
  {
    part as real / n as real
  }

  /** `n` is the size of the checklist. */
  function Transition(marks: Marks, n: nat, slot: Slot, done: bool): Moved
    requires slot.Item? ==> n > 0
  {
    if !done then
      if !IsDone(marks, slot) then Moved(marks, 0.0, false, false, Some(NothingToUncheck))
      else
        var cleared := marks[slot := false];
        Moved(if slot.Item? && IsDone(marks, Whole) then cleared[Whole := false] else cleared, 0.0, false, true, None)
    else if IsDone(marks, Whole) || IsDone(marks, slot) then Moved(marks, 0.0, false, false, Some(AlreadyChecked))
    else if slot.Item? then
      var share := if slot in marks then 0.0 else Ratio(1, n);
      var marked := marks[slot := true];
      if |DoneItems(marks)| + 1 >= n then Moved(marked[Whole := true], share, Whole !in marks, false, None)
      else Moved(marked, share, false, false, None)
    else
      var share :=
        if Whole in marks then 0.0
        else if n > 0 then Ratio(n - |DoneItems(marks)|, n)
        else 1.0;
      Moved(marks[Whole := true], share, Whole !in marks, false, None)
  }

  // --- The ledger ----------------------------------------------------------------------------

  function PaidTotals(rows: seq<Row>, date: Day): DayPaid
    decreases |rows|
  {
    if rows == [] then NOTHING
    else
      var last := rows[|rows| - 1];
      var before := PaidTotals(rows[..|rows| - 1], date);
      if last.date == date && last.scored then
        DayPaid(before.share + last.share, before.xp + last.xp, before.gold + last.gold)
      else before
  }

  lemma PaidAppend(rows: seq<Row>, row: Row, date: Day)
    ensures
      var before := PaidTotals(rows, date);
      PaidTotals(rows + [row], date) ==
      if row.date == date && row.scored then
        DayPaid(before.share + row.share, before.xp + row.xp, before.gold + row.gold)
      else before
  {
    assert (rows + [row])[..|rows|] == rows;
  }

  // --- Scoring a check -------------------------------------------------------------------------

  /** What the client sent for `done`. */
  datatype DoneClaim = Absent | Given(done: bool) | Garbled

  datatype Request = Request(slot: Slot, date: Day, claim: DoneClaim)

  datatype Refusal = DoneMalformed | DailyInactive | CheckDateOutOfRange | ItemUnresolvable | EngineRefused

  datatype Outcome = Refused(why: Refusal) | Scored(daily: Daily, profile: Profile)

  /** The draws and circumstances of one scored call. */
  datatype Draw = Draw(roll: real, pick: nat, today: Day, gear: Gear)

  function Wanted(claim: DoneClaim): bool { claim.Given? ==> claim.done }

  /** The unit a check of `date` counts toward. */
  function UnitOf(rec: Rule, date: Day): Day { if rec.TimesPerWeek? then WeekEnd(date) else date }

  /** A first completion earns a streak day unless its unit was already charged as missed. */
  predicate Credits(d: Daily, first: bool, date: Day)
    requires d.Parsable()
  {
    && first && d.rule.Some?
    && IsSchedulable(d.rule.value, date, d.anchor)
    && UnitOf(d.rule.value, date) !in d.misses
  }

  /** Why a request is turned away before anything moves. */
  function Screen(d: Daily, req: Request, today: Day): Option<Refusal> {
    if req.claim.Garbled? then Some(DoneMalformed)
    else if !d.active then Some(DailyInactive)
    else if req.date > today || req.date < d.anchor then Some(CheckDateOutOfRange)
    else if req.slot.Item? && req.slot.id !in d.items then Some(ItemUnresolvable)
    else None
  }

  function Record(d: Daily, row: Row): Daily { d.(rows := d.rows + [row]) }

  /** Pays the share that is still unpaid; `d` already carries the new marks and streak. */
  function ApplyShare(d: Daily, p: Profile, share: real, date: Day, rates: Rates, draw: Draw): Outcome
    requires rates.Loaded()
  {
    var paid := PaidTotals(d.rows, date);
    var part := ClampShare(share, paid.share);
    if part <= 0.0 then Scored(Record(d, Row(date, true, part, 0, 0.0)), p)
    else
      var ev := DailyCheck(part, d.streak, paid.share, paid.xp as real, paid.gold, d.difficulty);
      var result := Score(p, ev, rates, draw.roll, draw.pick, draw.today, draw.gear);
      if result.None? then Refused(EngineRefused)
      else
        var crit := CritMult(draw.roll, Effective(p, STR, draw.gear), rates);
        var f := FragmentOf(p, part, d.streak, d.difficulty.value, crit, rates, draw.today, draw.gear);
        var row := Row(date, true, part, Clamp(CheckXp(f.xpBase, part, paid.xp as real), f.xpRoom),
                       MaxR(0.0, MinR(CheckGold(f.goldBase, part, paid.gold), f.goldRoom)));
        Scored(Record(d, row), result.value)
  }

  lemma ItemsMeanSize(d: Daily, req: Request, today: Day)
    requires Screen(d, req, today).None?
    ensures req.slot.Item? ==> |d.items| > 0
  {}

  function ScoreCheck(d: Daily, p: Profile, req: Request, rates: Rates, draw: Draw): Outcome
    requires rates.Loaded() && d.Parsable()
  {
    if Screen(d, req, draw.today).Some? then Refused(Screen(d, req, draw.today).value)
    else
      ItemsMeanSize(d, req, draw.today);
      var m := Transition(MarksOn(d, req.date), |d.items|, req.slot, Wanted(req.claim));
      var moved := d.(marks := d.marks[req.date := m.marks],
                      streak := if Credits(d, m.first, req.date) then d.streak + 1 else d.streak);
      if m.reason.Some? then Scored(Record(moved, Row(req.date, false, m.share, 0, 0.0)), p)
      else if m.uncheck then Scored(Record(moved, Row(req.date, true, m.share, 0, 0.0)), p)
      else ApplyShare(moved, p, m.share, req.date, rates, draw)
  }

  /** What is left to do with a request, by what the screen and the transition say. */
  lemma CheckForm(d: Daily, p: Profile, req: Request, rates: Rates, draw: Draw)
    requires rates.Loaded() && d.Parsable()
    ensures Screen(d, req, draw.today).Some? ==>
      ScoreCheck(d, p, req, rates, draw) == Refused(Screen(d, req, draw.today).value)
    ensures Screen(d, req, draw.today).None? ==> (req.slot.Item? ==> |d.items| > 0)
    ensures Screen(d, req, draw.today).None? ==>
      var m := Transition(MarksOn(d, req.date), |d.items|, req.slot, Wanted(req.claim));
      var moved := d.(marks := d.marks[req.date := m.marks],
                      streak := if Credits(d, m.first, req.date) then d.streak + 1 else d.streak);
      ScoreCheck(d, p, req, rates, draw) ==
      if m.reason.Some? then Scored(Record(moved, Row(req.date, false, m.share, 0, 0.0)), p)
      else if m.uncheck then Scored(Record(moved, Row(req.date, true, m.share, 0, 0.0)), p)
      else ApplyShare(moved, p, m.share, req.date, rates, draw)
  {
    hide ApplyShare, Transition, Credits;
    if Screen(d, req, draw.today).None? { ItemsMeanSize(d, req, draw.today); }
  }

  /** A check writes marks, streak and ledger rows, and nothing else of the daily. */
  lemma ScoreCheckTouches(d: Daily, p: Profile, req: Request, rates: Rates, draw: Draw)
    requires rates.Loaded() && d.Parsable() && ScoreCheck(d, p, req, rates, draw).Scored?
    ensures
      var next := ScoreCheck(d, p, req, rates, draw).daily;
      next == d.(marks := next.marks, streak := next.streak, rows := next.rows)
  {
    hide Score, Transition, Credits, Screen, PaidTotals;
  }

  // --- Runs on one daily -------------------------------------------------------------------------

  /** What happens to a daily. A check comes with the profile as it then is; a new checklist
      takes the marks of the old items with it. */
  datatype Deed =
    | Check(req: Request, profile: Profile, draw: Draw)
    | ReplaceItems(items: set<int>)
    | Edit(active: bool, difficulty: Option<real>)
    | Miss(unit: Day, frozen: bool)

  function OnlyWhole(marks: map<Day, Marks>): map<Day, Marks> {
    map date | date in marks :: map slot | slot in marks[date] && slot.Whole? :: marks[date][slot]
  }

  /** A refused check leaves no trace. */
  function Do(d: Daily, deed: Deed, rates: Rates): (next: Daily)
    requires rates.Loaded() && d.Parsable()
    ensures next.rule == d.rule && next.anchor == d.anchor
  {
    match deed
    case Check(req, profile, draw) =>
      var outcome := ScoreCheck(d, profile, req, rates, draw);
      if outcome.Refused? then d else outcome.daily
    case ReplaceItems(items) => d.(items := items, marks := OnlyWhole(d.marks))
    case Edit(active, difficulty) => d.(active := active, difficulty := difficulty)
    case Miss(unit, frozen) => d.(misses := d.misses[unit := frozen], streak := if frozen then d.streak else 0)
  }

  function After(d: Daily, deeds: seq<Deed>, rates: Rates): (end: Daily)
    requires rates.Loaded() && d.Parsable()
    ensures end.rule == d.rule && end.anchor == d.anchor
    decreases |deeds|
  {
    if deeds == [] then d else After(Do(d, deeds[0], rates), deeds[1..], rates)
  }

  // --- What a day has paid ---------------------------------------------------------------------

  /** No day has paid more than one whole share. */
  ghost predicate WithinOne(d: Daily, date: Day) {
    var paid := PaidTotals(d.rows, date);
    0.0 <= paid.share <= 1.0 && paid.xp >= 0 && paid.gold >= 0.0
  }

  lemma TransitionShare(marks: Marks, n: nat, slot: Slot, done: bool)
    requires slot.Item? ==> n > 0
    requires |DoneItems(marks)| <= n
    ensures 0.0 <= Transition(marks, n, slot, done).share <= 1.0
  {
    if n > 0 {
      Quotient(1.0, n as real);
      Quotient((n - |DoneItems(marks)|) as real, n as real);
    }
  }

  /** Marks only ever stand for items still on the checklist. */
  ghost predicate MarksFit(d: Daily) {
    forall date, slot :: date in d.marks && slot in d.marks[date] && slot.Item? ==> slot.id in d.items
  }

  lemma DoneItemsFit(d: Daily, date: Day)
    requires MarksFit(d)
    ensures DoneItems(MarksOn(d, date)) <= d.items
    ensures |DoneItems(MarksOn(d, date))| <= |d.items|
  {
    SubsetSize(DoneItems(MarksOn(d, date)), d.items);
  }

  lemma ApplyShareLaw(d: Daily, p: Profile, share: real, date: Day, rates: Rates, draw: Draw)
    requires rates.Loaded() && WithinOne(d, date) && 0.0 <= share <= 1.0
    requires ApplyShare(d, p, share, date, rates, draw).Scored?
    ensures
      var next := ApplyShare(d, p, share, date, rates, draw).daily;
      && |next.rows| > |d.rows| && next == Record(d, next.rows[|d.rows|]) && next.rows[|d.rows|].date == date
      && WithinOne(next, date)
      && PaidTotals(next.rows, date).share == MinR(1.0, PaidTotals(d.rows, date).share + share)
  {
    hide Score, CheckXp, CheckGold, CritMult, FragmentOf, PaidTotals;
    var next := ApplyShare(d, p, share, date, rates, draw).daily;
    PaidAppend(d.rows, next.rows[|d.rows|], date);
  }

  /** What an accepted check leaves: marks and streak as the transition says, one more ledger
      row, and at most one whole share paid. */
  lemma ScoreCheckLaw(d: Daily, p: Profile, req: Request, rates: Rates, draw: Draw)
    requires rates.Loaded() && d.Parsable() && MarksFit(d) && WithinOne(d, req.date)
    requires ScoreCheck(d, p, req, rates, draw).Scored?
    ensures Screen(d, req, draw.today).None? && (req.slot.Item? ==> |d.items| > 0)
    ensures
      var next := ScoreCheck(d, p, req, rates, draw).daily;
      var m := Transition(MarksOn(d, req.date), |d.items|, req.slot, Wanted(req.claim));
      && |next.rows| > |d.rows|
      && next == d.(marks := d.marks[req.date := m.marks], rows := d.rows + [next.rows[|d.rows|]],
                    streak := if Credits(d, m.first, req.date) then d.streak + 1 else d.streak)
      && next.rows[|d.rows|].date == req.date
      && WithinOne(next, req.date)
      && PaidTotals(next.rows, req.date).share == MinR(1.0, PaidTotals(d.rows, req.date).share + m.share)
  {
    hide ApplyShare, Credits, Transition, PaidTotals, Screen, DoneItems;
    ItemsMeanSize(d, req, draw.today);
    DoneItemsFit(d, req.date);
    var m := Transition(MarksOn(d, req.date), |d.items|, req.slot, Wanted(req.claim));
    TransitionShare(MarksOn(d, req.date), |d.items|, req.slot, Wanted(req.claim));
    QuietTransition(MarksOn(d, req.date), |d.items|, req.slot, Wanted(req.claim));
    var moved := d.(marks := d.marks[req.date := m.marks],
                    streak := if Credits(d, m.first, req.date) then d.streak + 1 else d.streak);
    if m.reason.Some? {
      PaidAppend(d.rows, Row(req.date, false, m.share, 0, 0.0), req.date);
    } else if m.uncheck {
      PaidAppend(d.rows, Row(req.date, true, m.share, 0, 0.0), req.date);
    } else {
      ApplyShareLaw(moved, p, m.share, req.date, rates, draw);
    }
  }

  lemma QuietTransition(marks: Marks, n: nat, slot: Slot, done: bool)
    requires slot.Item? ==> n > 0
    ensures
      var m := Transition(marks, n, slot, done);
      m.reason.Some? || m.uncheck ==> m.share == 0.0 && !m.first
  {}

  lemma OtherDays(rows: seq<Row>, row: Row, date: Day)
    requires row.date != date
    ensures PaidTotals(rows + [row], date) == PaidTotals(rows, date)
  {
    PaidAppend(rows, row, date);
  }

  lemma TransitionFits(marks: Marks, n: nat, slot: Slot, done: bool)
    requires slot.Item? ==> n > 0
    ensures
      var m := Transition(marks, n, slot, done);
      && (forall k :: k in marks ==> k in m.marks)
      && (forall k :: k in m.marks ==> k in marks || k == slot || k == Whole)
      && (m.first <==> Whole !in marks && Whole in m.marks)
  {}

  /** Whatever happens to a daily, marks fit the checklist, a whole-day mark once made stays,
      and no day pays past one share. */
  lemma DoKeeps(d: Daily, deed: Deed, date: Day, rates: Rates)
    requires rates.Loaded() && d.Parsable() && MarksFit(d) && forall x :: WithinOne(d, x)
    ensures
      var next := Do(d, deed, rates);
      && MarksFit(next) && (forall x :: WithinOne(next, x))
      && (Whole in MarksOn(d, date) ==> Whole in MarksOn(next, date))
  {
    hide ScoreCheck, Transition, DoneItems, Screen, Credits;
    var next := Do(d, deed, rates);
    if deed.Check? && ScoreCheck(d, deed.profile, deed.req, rates, deed.draw).Scored? {
      var req := deed.req;
      ScoreCheckLaw(d, deed.profile, req, rates, deed.draw);
      SlotOnList(d, req, deed.draw.today);
      TransitionFits(MarksOn(d, req.date), |d.items|, req.slot, Wanted(req.claim));
      forall x ensures WithinOne(next, x) {
        assert WithinOne(d, x);
        if x != req.date { OtherDays(d.rows, next.rows[|d.rows|], x); }
      }
    } else if deed.Check? {
    } else {
      forall x ensures WithinOne(next, x) { assert WithinOne(d, x); }
    }
  }

  lemma SlotOnList(d: Daily, req: Request, today: Day)
    requires Screen(d, req, today).None?
    ensures req.slot.Item? ==> req.slot.id in d.items
  {}

  /** Over any sequence of checks, unchecks, restores, edits and misses, with the checklist
      replaced in between, the shares paid for one day add up to at most 1. */
  lemma {:induction false} SharesNeverExceedOne(d: Daily, deeds: seq<Deed>, date: Day, rates: Rates)
    requires rates.Loaded() && d.Parsable() && MarksFit(d) && forall x :: WithinOne(d, x)
    ensures MarksFit(After(d, deeds, rates)) && forall x :: WithinOne(After(d, deeds, rates), x)
    ensures Whole in MarksOn(d, date) ==> Whole in MarksOn(After(d, deeds, rates), date)
    decreases |deeds|
  {
    hide Do, MarksFit, WithinOne, MarksOn;
    if deeds != [] {
      DoKeeps(d, deeds[0], date, rates);
      SharesNeverExceedOne(Do(d, deeds[0], rates), deeds[1..], date, rates);
    }
  }

  // --- A checklist that stays ---------------------------------------------------------------------

  function MarkedItems(marks: Marks): set<int> { set slot | slot in marks && slot.Item? :: slot.id }

  function PartPaid(marks: Marks, n: nat): real {
    if Whole in marks then 1.0 else if n == 0 then 0.0 else Ratio(|MarkedItems(marks)|, n)
  }

  /** What a day has paid, read off its marks: an equal part per item ever marked, and all of
      it once the whole-day mark exists. */
  ghost predicate PaidInParts(d: Daily, date: Day) {
    && MarkedItems(MarksOn(d, date)) <= d.items
    && PaidTotals(d.rows, date).share == PartPaid(MarksOn(d, date), |d.items|)
  }

  predicate Fixed(deeds: seq<Deed>) { forall deed :: deed in deeds ==> !deed.ReplaceItems? }

  lemma MarkOne(marks: Marks, id: int, done: bool)
    ensures MarkedItems(marks[Item(id) := done]) == MarkedItems(marks) + {id}
    ensures MarkedItems(marks[Whole := done]) == MarkedItems(marks)
  {
    assert forall slot :: slot in marks && slot.Item? ==> slot in marks[Item(id) := done];
  }

  lemma DoneAreMarked(marks: Marks)
    ensures DoneItems(marks) <= MarkedItems(marks)
    ensures |DoneItems(marks)| <= |MarkedItems(marks)|
  {
    SubsetSize(DoneItems(marks), MarkedItems(marks));
  }

  lemma ItemPays(marks: Marks, items: set<int>, id: int)
    requires MarkedItems(marks) <= items && id in items && |items| > 0
    requires !IsDone(marks, Whole) && !IsDone(marks, Item(id))
    ensures
      var m := Transition(marks, |items|, Item(id), true);
      MarkedItems(m.marks) <= items
      && MinR(1.0, PartPaid(marks, |items|) + m.share) == PartPaid(m.marks, |items|)
  {
    hide DoneItems, MarkedItems, Ratio;
    SubsetSize(MarkedItems(marks), items);
    DoneAreMarked(marks);
    Parts(|MarkedItems(marks)|, |DoneItems(marks)|, |items|);
    MarkOne(marks, id, true);
    MarkOne(marks[Item(id) := true], id, true);
    AddOne(marks, id);
    AllMarked(marks, items, id);
    if Item(id) in marks { UndoneIsSpare(marks, id); }
  }

  lemma UncheckPays(marks: Marks, slot: Slot, n: nat)
    requires slot.Item? ==> n > 0
    ensures
      var m := Transition(marks, n, slot, false);
      MarkedItems(m.marks) == MarkedItems(marks) && m.share == 0.0 && PartPaid(m.marks, n) == PartPaid(marks, n)
  {
    hide DoneItems;
    assert Transition(marks, n, slot, false).marks.Keys == marks.Keys;
    SameKeys(marks, Transition(marks, n, slot, false).marks);
  }

  lemma SameKeys(a: Marks, b: Marks)
    requires a.Keys == b.Keys
    ensures MarkedItems(a) == MarkedItems(b)
  {
    assert forall slot :: slot in a <==> slot in b;
  }

  lemma PartBounds(marks: Marks, items: set<int>)
    requires MarkedItems(marks) <= items
    ensures 0.0 <= PartPaid(marks, |items|) <= 1.0
  {
    SubsetSize(MarkedItems(marks), items);
    if |items| > 0 { Parts(|MarkedItems(marks)|, 0, |items|); }
  }

  /** The share asked for, on top of what the marks before say is paid, is what the marks
      after say is paid. */
  lemma TransitionPays(marks: Marks, items: set<int>, slot: Slot, done: bool)
    requires MarkedItems(marks) <= items && (slot.Item? ==> slot.id in items && |items| > 0)
    ensures
      var m := Transition(marks, |items|, slot, done);
      MarkedItems(m.marks) <= items
      && MinR(1.0, PartPaid(marks, |items|) + m.share) == PartPaid(m.marks, |items|)
  {
    hide MarkedItems, DoneItems, PartPaid;
    PartBounds(marks, items);
    if !done {
      UncheckPays(marks, slot, |items|);
    } else if !IsDone(marks, Whole) && !IsDone(marks, slot) {
      if slot.Item? {
        ItemPays(marks, items, slot.id);
      } else {
        WholePays(marks, items);
      }
    }
  }

  lemma WholePays(marks: Marks, items: set<int>)
    requires MarkedItems(marks) <= items && !IsDone(marks, Whole)
    ensures
      var m := Transition(marks, |items|, Whole, true);
      MarkedItems(m.marks) <= items
      && MinR(1.0, PartPaid(marks, |items|) + m.share) == PartPaid(m.marks, |items|)
  {
    hide MarkedItems, DoneItems;
    SubsetSize(MarkedItems(marks), items);
    DoneAreMarked(marks);
    if |items| > 0 { Parts(|MarkedItems(marks)|, |DoneItems(marks)|, |items|); }
    MarkOne(marks, 0, true);
  }

  lemma AddOne(marks: Marks, id: int)
    ensures Item(id) in marks ==> id in MarkedItems(marks)
    ensures Item(id) !in marks ==> id !in MarkedItems(marks)
    ensures |MarkedItems(marks) + {id}| == |MarkedItems(marks)| + if Item(id) in marks then 0 else 1
  {
    if Item(id) in marks { assert MarkedItems(marks) + {id} == MarkedItems(marks); }
  }

  lemma UndoneIsSpare(marks: Marks, id: int)
    requires Item(id) in marks && !marks[Item(id)]
    ensures |DoneItems(marks)| + 1 <= |MarkedItems(marks)|
  {
    SubsetSize(DoneItems(marks) + {id}, MarkedItems(marks));
  }

  lemma AllMarked(marks: Marks, items: set<int>, id: int)
    requires MarkedItems(marks) <= items && id in items
    ensures |MarkedItems(marks) + {id}| <= |items|
  {
    SubsetSize(MarkedItems(marks) + {id}, items);
  }

  lemma Sum(a: real, b: real, r: real)
    requires r > 0.0
    ensures a / r + b / r == (a + b) / r
  {}

  lemma Quotient(a: real, r: real)
    requires r > 0.0
    ensures a >= 0.0 ==> a / r >= 0.0
    ensures a <= r ==> a / r <= 1.0
    ensures a >= r ==> a / r >= 1.0
  {
    var q := a / r;
    assert q * r == a;
    if q < 0.0 { assert q * r < 0.0; }
    if q > 1.0 { assert q * r - r == (q - 1.0) * r > 0.0; }
    if q < 1.0 { assert r - q * r == (1.0 - q) * r > 0.0; }
  }

  lemma Parts(marked: nat, done: nat, n: nat)
    requires done <= marked <= n && n > 0
    ensures 0.0 <= Ratio(marked, n) <= 1.0 && Ratio(1, n) >= 0.0
    ensures Ratio(marked, n) + Ratio(n - done, n) >= 1.0
    ensures Ratio(marked + 1, n) == Ratio(marked, n) + Ratio(1, n)
    ensures marked == n ==> Ratio(marked, n) == 1.0
    ensures marked + 1 == n ==> Ratio(marked + 1, n) == 1.0
    ensures marked + 1 <= n ==> Ratio(marked + 1, n) <= 1.0
  {
    var r := n as real;
    Quotient(1.0, r);
    Quotient(marked as real, r);
    Quotient((marked + 1) as real, r);
    Sum(marked as real, 1.0, r);
    Sum(marked as real, (n - done) as real, r);
    Quotient(marked as real + (n - done) as real, r);
  }

  /** One deed that leaves the checklist alone keeps the books exact. */
  lemma DoPaysInParts(d: Daily, deed: Deed, date: Day, rates: Rates)
    requires rates.Loaded() && d.Parsable() && MarksFit(d) && WithinOne(d, date) && PaidInParts(d, date)
    requires !deed.ReplaceItems? && (deed.Check? ==> WithinOne(d, deed.req.date))
    ensures PaidInParts(Do(d, deed, rates), date)
  {
    hide ScoreCheck, Transition, MarkedItems, PartPaid, Screen, Credits, PaidTotals;
    if deed.Check? && ScoreCheck(d, deed.profile, deed.req, rates, deed.draw).Scored? {
      var req := deed.req;
      ScoreCheckLaw(d, deed.profile, req, rates, deed.draw);
      SlotOnList(d, req, deed.draw.today);
      if req.date == date {
        TransitionPays(MarksOn(d, date), d.items, req.slot, Wanted(req.claim));
      } else {
        OtherDays(d.rows, Do(d, deed, rates).rows[|d.rows|], date);
      }
    }
  }

  /** With a checklist that stays, any order of checks, unchecks and restores has paid exactly
      the parts of the items ever marked, and exactly 1 once the whole-day mark exists. */
  lemma {:induction false} FixedChecklistPaysExactly(d: Daily, deeds: seq<Deed>, date: Day, rates: Rates)
    requires rates.Loaded() && d.Parsable() && MarksFit(d) && (forall x :: WithinOne(d, x))
    requires PaidInParts(d, date) && Fixed(deeds)
    ensures PaidInParts(After(d, deeds, rates), date)
    ensures Whole in MarksOn(After(d, deeds, rates), date) ==>
              PaidTotals(After(d, deeds, rates).rows, date).share == 1.0
    decreases |deeds|
  {
    hide Do, MarksFit, WithinOne;
    if deeds != [] {
      assert deeds[0] in deeds && forall deed :: deed in deeds[1..] ==> deed in deeds;
      DoKeeps(d, deeds[0], date, rates);
      DoPaysInParts(d, deeds[0], date, rates);
      FixedChecklistPaysExactly(Do(d, deeds[0], rates), deeds[1..], date, rates);
    }
  }

  // --- The streak -------------------------------------------------------------------------------

  /** Streak days a deed earns for a check of `date`. */
  function CreditOn(d: Daily, deed: Deed, date: Day, rates: Rates): int
    requires rates.Loaded() && d.Parsable()
  {
    if deed.Check? && deed.req.date == date then Do(d, deed, rates).streak - d.streak else 0
  }

  function CreditsOver(d: Daily, deeds: seq<Deed>, date: Day, rates: Rates): int
    requires rates.Loaded() && d.Parsable()
    decreases |deeds|
  {
    if deeds == [] then 0
    else CreditOn(d, deeds[0], date, rates) + CreditsOver(Do(d, deeds[0], rates), deeds[1..], date, rates)
  }

  /** A streak day is earned exactly by the check that completes a schedulable date for the
      first time, unless its unit was already missed. */
  lemma CreditLaw(d: Daily, deed: Deed, date: Day, rates: Rates)
    requires rates.Loaded() && d.Parsable() && MarksFit(d) && forall x :: WithinOne(d, x)
    ensures 0 <= CreditOn(d, deed, date, rates) <= 1
    ensures CreditOn(d, deed, date, rates) == 1 <==>
              && deed.Check? && deed.req.date == date
              && Whole !in MarksOn(d, date) && Whole in MarksOn(Do(d, deed, rates), date)
              && d.rule.Some? && IsSchedulable(d.rule.value, date, d.anchor)
              && UnitOf(d.rule.value, date) !in d.misses
  {
    hide ScoreCheck, Transition, MarksFit, Screen, WithinOne, IsSchedulable;
    if deed.Check? && ScoreCheck(d, deed.profile, deed.req, rates, deed.draw).Scored? {
      ScoreCheckLaw(d, deed.profile, deed.req, rates, deed.draw);
      TransitionFits(MarksOn(d, deed.req.date), |d.items|, deed.req.slot, Wanted(deed.req.claim));
    }
  }

  /** A date earns at most one streak day, ever: not again by unchecking and restoring, not by
      replacing the checklist, not after a miss broke the streak. */
  lemma {:induction false} StreakOncePerDate(d: Daily, deeds: seq<Deed>, date: Day, rates: Rates)
    requires rates.Loaded() && d.Parsable() && MarksFit(d) && forall x :: WithinOne(d, x)
    ensures 0 <= CreditsOver(d, deeds, date, rates) <= if Whole in MarksOn(d, date) then 0 else 1
    decreases |deeds|
  {
    hide Do, MarksFit, WithinOne, MarksOn, CreditOn;
    if deeds != [] {
      DoKeeps(d, deeds[0], date, rates);
      CreditLaw(d, deeds[0], date, rates);
      StreakOncePerDate(Do(d, deeds[0], rates), deeds[1..], date, rates);
    }
  }

  /** Once a unit's miss is on record, no check inside that unit raises the streak again. */
  lemma {:induction false} NoCreditAfterMiss(d: Daily, deeds: seq<Deed>, date: Day, rates: Rates)
    requires rates.Loaded() && d.Parsable() && MarksFit(d) && forall x :: WithinOne(d, x)
    requires d.rule.Some? && UnitOf(d.rule.value, date) in d.misses
    ensures CreditsOver(d, deeds, date, rates) == 0
    decreases |deeds|
  {
    hide MarksFit, WithinOne, MarksOn, CreditOn, ScoreCheck;
    if deeds != [] {
      DoKeeps(d, deeds[0], date, rates);
      CreditLaw(d, deeds[0], date, rates);
      KeepsMisses(d, deeds[0], rates);
      NoCreditAfterMiss(Do(d, deeds[0], rates), deeds[1..], date, rates);
    }
  }

  lemma KeepsMisses(d: Daily, deed: Deed, rates: Rates)
    requires rates.Loaded() && d.Parsable()
    ensures forall u :: u in d.misses ==> u in Do(d, deed, rates).misses
  {
    hide Transition, Screen, Score, Credits;
  }

  // --- What the ledger of a day amounts to --------------------------------------------------------

  /** The fragment a deed pays for a check of `date`; none for a refusal, an uncheck, a restore
      or a day that is paid in full. */
  function FragmentIn(d: Daily, deed: Deed, date: Day, rates: Rates): seq<Fragment>
    requires rates.Loaded() && d.Parsable()
  {
    if !deed.Check? || deed.req.date != date || d.difficulty.None?
       || ScoreCheck(d, deed.profile, deed.req, rates, deed.draw).Refused?
    then []
    else
      var req, p, draw := deed.req, deed.profile, deed.draw;
      ItemsAreThere(d, p, req, rates, draw);
      var m := Transition(MarksOn(d, date), |d.items|, req.slot, Wanted(req.claim));
      var part := ClampShare(m.share, PaidTotals(d.rows, date).share);
      if m.reason.Some? || m.uncheck || part <= 0.0 then []
      else
        var streak := if Credits(d, m.first, date) then d.streak + 1 else d.streak;
        var crit := CritMult(draw.roll, Effective(p, STR, draw.gear), rates);
        [FragmentOf(p, part, streak, d.difficulty.value, crit, rates, draw.today, draw.gear)]
  }

  lemma ItemsAreThere(d: Daily, p: Profile, req: Request, rates: Rates, draw: Draw)
    requires rates.Loaded() && d.Parsable() && ScoreCheck(d, p, req, rates, draw).Scored?
    ensures req.slot.Item? ==> |d.items| > 0
  {
    hide ApplyShare, Transition;
    ItemsMeanSize(d, req, draw.today);
  }

  function FragmentsOver(d: Daily, deeds: seq<Deed>, date: Day, rates: Rates): seq<Fragment>
    requires rates.Loaded() && d.Parsable()
    decreases |deeds|
  {
    if deeds == [] then []
    else FragmentIn(d, deeds[0], date, rates) + FragmentsOver(Do(d, deeds[0], rates), deeds[1..], date, rates)
  }

  lemma SharePays(d: Daily, p: Profile, share: real, date: Day, rates: Rates, draw: Draw)
    requires rates.Loaded() && WithinOne(d, date) && 0.0 <= share
    requires ApplyShare(d, p, share, date, rates, draw).Scored?
    ensures
      var paid := PaidTotals(d.rows, date);
      var part := ClampShare(share, paid.share);
      var crit := CritMult(draw.roll, Effective(p, STR, draw.gear), rates);
      var after := PaidTotals(ApplyShare(d, p, share, date, rates, draw).daily.rows, date);
      if part <= 0.0 then after == paid
      else
        d.difficulty.Some?
        && after == PayFragment(paid, FragmentOf(p, part, d.streak, d.difficulty.value, crit, rates, draw.today, draw.gear))
  {
    hide Score, CheckXp, CheckGold, CritMult, XpBase, GoldBase, PaidTotals, SyncToday;
    var next := ApplyShare(d, p, share, date, rates, draw).daily;
    var part := ClampShare(share, PaidTotals(d.rows, date).share);
    PaidAppend(d.rows, next.rows[|d.rows|], date);
    if part > 0.0 {
      ScoredMeansRated(p, part, d.streak, PaidTotals(d.rows, date), d.difficulty, rates, draw);
      assert ClampShare(part, PaidTotals(d.rows, date).share) == part;
    }
  }

  lemma ScoredMeansRated(p: Profile, part: real, streak: nat, paid: DayPaid, difficulty: Option<real>, rates: Rates,
                         draw: Draw)
    requires rates.Loaded()
    ensures
      var ev := DailyCheck(part, streak, paid.share, paid.xp as real, paid.gold, difficulty);
      Score(p, ev, rates, draw.roll, draw.pick, draw.today, draw.gear).Some? ==> difficulty.Some?
  {}

  lemma CheckPays(d: Daily, p: Profile, req: Request, rates: Rates, draw: Draw)
    requires rates.Loaded() && d.Parsable() && MarksFit(d) && WithinOne(d, req.date)
    requires ScoreCheck(d, p, req, rates, draw).Scored?
    ensures
      var deed := Check(req, p, draw);
      PaidTotals(ScoreCheck(d, p, req, rates, draw).daily.rows, req.date)
        == PayAll(PaidTotals(d.rows, req.date), FragmentIn(d, deed, req.date, rates))
  {
    hide ApplyShare, Credits, Transition, PaidTotals, Screen, DoneItems, PayFragment, FragmentOf, CritMult;
    var deed, date := Check(req, p, draw), req.date;
    ItemsMeanSize(d, req, draw.today);
    DoneItemsFit(d, date);
    var m := Transition(MarksOn(d, date), |d.items|, req.slot, Wanted(req.claim));
    TransitionShare(MarksOn(d, date), |d.items|, req.slot, Wanted(req.claim));
    QuietTransition(MarksOn(d, date), |d.items|, req.slot, Wanted(req.claim));
    var paid := PaidTotals(d.rows, date);
    if m.reason.Some? {
      PaidAppend(d.rows, Row(date, false, m.share, 0, 0.0), date);
    } else if m.uncheck {
      PaidAppend(d.rows, Row(date, true, m.share, 0, 0.0), date);
    } else {
      var moved := d.(marks := d.marks[date := m.marks],
                      streak := if Credits(d, m.first, date) then d.streak + 1 else d.streak);
      SharePays(moved, p, m.share, date, rates, draw);
      if ClampShare(m.share, paid.share) > 0.0 {
        var fs := FragmentIn(d, deed, date, rates);
        assert fs[1..] == [];
        assert PayAll(PayFragment(paid, fs[0]), []) == PayFragment(paid, fs[0]);
      }
    }
  }

  lemma DeedPays(d: Daily, deed: Deed, date: Day, rates: Rates)
    requires rates.Loaded() && d.Parsable() && MarksFit(d) && forall x :: WithinOne(d, x)
    ensures PaidTotals(Do(d, deed, rates).rows, date)
         == PayAll(PaidTotals(d.rows, date), FragmentIn(d, deed, date, rates))
  {
    hide ScoreCheck, FragmentIn, PaidTotals, MarksFit;
    if deed.Check? && ScoreCheck(d, deed.profile, deed.req, rates, deed.draw).Scored? {
      assert WithinOne(d, deed.req.date);
      if deed.req.date == date {
        CheckPays(d, deed.profile, deed.req, rates, deed.draw);
      } else {
        ScoreCheckLaw(d, deed.profile, deed.req, rates, deed.draw);
        OtherDays(d.rows, Do(d, deed, rates).rows[|d.rows|], date);
        NoFragment(d, deed, date, rates);
      }
    } else {
      NoFragment(d, deed, date, rates);
    }
  }

  lemma NoFragment(d: Daily, deed: Deed, date: Day, rates: Rates)
    requires rates.Loaded() && d.Parsable()
    requires !deed.Check? || deed.req.date != date
             || ScoreCheck(d, deed.profile, deed.req, rates, deed.draw).Refused?
    ensures FragmentIn(d, deed, date, rates) == []
  {}

  /** Over any run the ledger of a day is its fragments paid one after the other: it never
      exceeds the best whole check among them, and with one XP base out of the cap's reach it
      holds the whole check's XP exactly when the rounded parts reach it. */
  lemma {:induction false} DayIsItsFragments(d: Daily, deeds: seq<Deed>, date: Day, rates: Rates)
    requires rates.Loaded() && d.Parsable() && MarksFit(d) && forall x :: WithinOne(d, x)
    ensures PaidTotals(After(d, deeds, rates).rows, date)
         == PayAll(PaidTotals(d.rows, date), FragmentsOver(d, deeds, date, rates))
    decreases |deeds|
  {
    hide Do, MarksFit, WithinOne, FragmentIn, PaidTotals;
    if deeds != [] {
      var next := Do(d, deeds[0], rates);
      DoKeeps(d, deeds[0], date, rates);
      DeedPays(d, deeds[0], date, rates);
      DayIsItsFragments(next, deeds[1..], date, rates);
      PayAllThen(PaidTotals(d.rows, date), FragmentIn(d, deeds[0], date, rates),
                 FragmentsOver(next, deeds[1..], date, rates));
    }
  }

  lemma DayNeverMints(d: Daily, deeds: seq<Deed>, date: Day, rates: Rates)
    requires rates.Loaded() && d.Parsable() && MarksFit(d) && forall x :: WithinOne(d, x)
    requires PaidTotals(d.rows, date) == NOTHING
    ensures
      var paid, fs := PaidTotals(After(d, deeds, rates).rows, date), FragmentsOver(d, deeds, date, rates);
      && 0 <= paid.xp <= WholeXp(fs) && 0.0 <= paid.gold <= WholeGold(fs) as real
      && (forall base: real :: base >= 0.0 && SteadyXp(fs, base) ==>
            (paid.xp == RoundHalfUp(base) <==> AskedXp(0.0, fs, base) >= RoundHalfUp(base)))
  {
    hide After, FragmentsOver, PayAll, RoundHalfUp, AskedXp, WholeXp, WholeGold;
    var fs := FragmentsOver(d, deeds, date, rates);
    DayIsItsFragments(d, deeds, date, rates);
    FragmentsNeverMint(NOTHING, fs);
    WholeCovers(fs);
    forall base: real | base >= 0.0 && SteadyXp(fs, base)
      ensures PayAll(NOTHING, fs).xp == RoundHalfUp(base) <==> AskedXp(0.0, fs, base) >= RoundHalfUp(base)
    {
      XpInFullIff(fs, base);
    }
  }

  /** A day that is completed with a checklist that stays has paid at least a whole check at the
      lowest gold base among its fragments and at most one at the highest, whatever the crits
      and the streak did in between, as long as the daily cap is out of reach. */
  lemma CompletedDayPaysGold(d: Daily, deeds: seq<Deed>, date: Day, rates: Rates, low: real)
    requires rates.Loaded() && d.Parsable() && MarksFit(d) && forall x :: WithinOne(d, x)
    requires PaidTotals(d.rows, date) == NOTHING && PaidInParts(d, date) && Fixed(deeds)
    requires low >= 0.0 && AtLeast(FragmentsOver(d, deeds, date, rates), low)
    ensures
      var paid, fs := PaidTotals(After(d, deeds, rates).rows, date), FragmentsOver(d, deeds, date, rates);
      && paid.gold <= WholeGold(fs) as real
      && (Whole in MarksOn(After(d, deeds, rates), date) ==> paid.gold >= Ceil(low) as real)
  {
    hide After, FragmentsOver, PayAll, Ceil, WholeGold, AtLeast, MarksOn, MarksFit, WithinOne, PaidInParts;
    DayIsItsFragments(d, deeds, date, rates);
    DayPaysInFull(FragmentsOver(d, deeds, date, rates), low);
    FixedChecklistPaysExactly(d, deeds, date, rates);
  }
}
