/** Whole careers of one profile: scoring and spending in any order. Ingests book on the day the
    clock shows, session steps on the later of their own day and the newest booked one. */
module Career {
  import opened Basics
  import opened Economy
  import opened EconomyLaws
  import opened Character

  // --- What an event comes down to ---------------------------------------------------------

  datatype Effect = Paid(xp: int, gold: real) | Hurt(amount: real) | Untouched

  function Land(p: Profile, effect: Effect, rates: Rates, pick: nat, today: Day, gear: Gear): Profile
    requires rates.Loaded()
  {
    match effect
    case Paid(xp, gold) => Pay(p, xp, gold, rates, today)
    case Hurt(amount) => ApplyHpLoss(p, amount, rates, pick, gear)
    case Untouched => p
  }

  /** The hp damage an event deals, if it deals any. */
  function Blow(ev: Event, rates: Rates): Option<real> {
    match ev
    case BadHabit(delta, Some(mult)) => Some(Harm(delta, mult, rates))
    case Damage(Some(amount), _) => Some(amount)
    case Damage(None, Some(mult)) => Some(Harm(1.0, mult, rates))
    case DailyMissed(Some(mult)) => Some(Harm(1.0, mult, rates))
    case _ => None
  }

  /** Every accepted event either pays, or hurts, or leaves the profile alone. */
  lemma ScoreLands(p: Profile, ev: Event, rates: Rates, roll: real, pick: nat, today: Day, gear: Gear)
    returns (effect: Effect)
    requires rates.Loaded() && Score(p, ev, rates, roll, pick, today, gear).Some?
    ensures Score(p, ev, rates, roll, pick, today, gear).value == Land(p, effect, rates, pick, today, gear)
    ensures Blow(ev, rates) == if effect.Hurt? then Some(effect.amount) else None
  {
    hide AwardXp, AppliedXp, ApplyHpLoss, LevelUps, Harm, HabitXp, HabitGold, SpeedrunXp, FocusGold, MilestoneXp;
    var crit := CritMult(roll, Effective(p, STR, gear), rates);
    match ev {
      case FocusDone(minutes, difficulty) =>
        effect := Paid(FocusXp(p, minutes, difficulty.value, crit, rates, gear),
                       FocusGold(p, minutes, difficulty.value, crit, rates, gear));
      case SpeedrunDone(minutes, difficulty, winBonus) =>
        effect := Paid(SpeedrunXp(p, minutes, difficulty.value, crit, winBonus, rates, gear),
                       FocusGold(p, minutes, difficulty.value, crit, rates, gear));
      case GoodHabit(delta, difficulty) =>
        effect := Paid(HabitXp(p, delta, difficulty.value, crit, rates, gear),
                       HabitGold(p, delta, difficulty.value, crit, rates, gear));
      case BadHabit(delta, difficulty) => effect := Hurt(Harm(delta, difficulty.value, rates));
      case Damage(amount, difficulty) =>
        effect := Hurt(if amount.Some? then amount.value else Harm(1.0, difficulty.value, rates));
      case StopwatchMilestone(milestones) =>
        effect := Paid(MilestoneXp(milestones, crit, rates), 0.0);
        NoGold(p, effect.xp, rates, today);
      case DailyCheck(share, streak, paidShare, paidXp, paidGold, difficulty) =>
        var part := ClampShare(share, paidShare);
        effect := Paid(CheckXp(XpBase(p, difficulty.value, crit, rates, gear), part, paidXp),
                       CheckGold(GoldBase(p, difficulty.value, crit, streak, rates, gear), part, paidGold));
      case DailyMissed(difficulty) => effect := Hurt(Harm(1.0, difficulty.value, rates));
      case Marker => effect := Untouched;
    }
  }

  lemma NoGold(p: Profile, xp: int, rates: Rates, today: Day)
    requires rates.Loaded()
    ensures Pay(p, xp, 0.0, rates, today) == AwardXp(p, xp, rates, today)
  {
    var q := SyncToday(p, today);
    var applied := AppliedXp(p, xp, rates, today);
    LevelUpsIgnoresToday(q.(xp := q.xp + applied, xpToday := q.xpToday + applied), 0, rates);
  }

  // --- Deeds -------------------------------------------------------------------------------

  /** What can happen to a profile. `Ingested` and `Stepped` score one event: at the clock's
      day, or at the day of the session transition. */
  datatype Deed =
    | Ingested(ev: Event, roll: real, pick: nat, gear: Gear)
    | Stepped(ev: Event, roll: real, pick: nat, gear: Gear, stepDay: Day)
    | Allocated(points: map<int, int>)
    | Distributed
    | Chosen(class_: Option<Class>)
    | Respecced

  /** The day a deed books on: a session step never books before the newest booked day. */
  function BookingDay(p: Profile, deed: Deed, wall: Day): Day {
    match deed
    case Stepped(_, _, _, _, stepDay) => if p.totalsDay.Some? then Max(stepDay, p.totalsDay.value) else stepDay
    case _ => wall
  }

  /** A rejected deed leaves the profile as it was. */
  function Do(p: Profile, deed: Deed, rates: Rates, wall: Day): Profile
    requires rates.Loaded()
  {
    var result :=
      match deed
      case Ingested(ev, roll, pick, gear) => Score(p, ev, rates, roll, pick, BookingDay(p, deed, wall), gear)
      case Stepped(ev, roll, pick, gear, _) => Score(p, ev, rates, roll, pick, BookingDay(p, deed, wall), gear)
      case Allocated(points) => Allocate(p, points)
      case Distributed => Some(Distribute(p))
      case Chosen(class_) => SelectClass(p, class_)
      case Respecced => Respec(p, rates);
    if result.Some? then result.value else p
  }

  datatype Turn = Turn(deed: Deed, wall: Day)

  function After(p: Profile, turns: seq<Turn>, rates: Rates): Profile
    requires rates.Loaded()
    decreases |turns|
  {
    if turns == [] then p else After(Do(p, turns[0].deed, rates, turns[0].wall), turns[1..], rates)
  }

  // --- What always holds of a profile -----------------------------------------------------

  ghost predicate Sound(p: Profile, rates: Rates)
    requires rates.Loaded()
  {
    Settled(p, rates) && 0.0 < p.hp <= p.maxHp && p.gold >= 0.0 && Total(p.stats) <= STAT_POINT_CAP
  }

  /** Points a profile owns: allocated or still to be spent. */
  function Wealth(p: Profile): nat { Total(p.stats) + p.unspent }

  lemma DeathLaw(p: Profile, pick: nat, rates: Rates)
    requires rates.Loaded() && p.level >= 1 && p.xp >= 0 && p.maxHp > 0.0 && Total(p.stats) <= STAT_POINT_CAP
    ensures
      var q := Death(p, pick);
      && Sound(q, rates) && q.level == Max(1, p.level - 1)
      && Standing(q, rates) <= Standing(p, rates)
      && q == p.(level := q.level, xp := 0, gold := 0.0, hp := p.maxHp, stats := q.stats)
      && Total(q.stats) == Total(p.stats) - (if Total(p.stats) > 0 then 1 else 0)
      && (forall k :: 0 <= k < 4 ==> q.stats[k] <= p.stats[k])
  {
    LadderGrows(Max(1, p.level - 1), p.level, rates);
    var lost := StatLost(p.stats, pick);
    if lost.Some? {
      assert lost.value in Losable(p.stats);
      LoseOne(p.stats, lost.value);
    } else {
      assert Losable(p.stats) == [];
    }
  }

  lemma LoseOne(stats: Stats, k: nat)
    requires k < 4 && stats[k] > 0
    ensures Total(stats[k := stats[k] - 1]) == Total(stats) - 1
  {}

  /** Whether an hp loss kills. */
  predicate Kills(p: Profile, amount: real, rates: Rates, gear: Gear)
    requires rates.Loaded()
  {
    p.hp <= HpLost(p, amount, rates, gear)
  }

  /** One landed effect: what it keeps, and what it does to the points, the standing and the
      day's counters. */
  lemma LandLaw(p: Profile, effect: Effect, rates: Rates, pick: nat, today: Day, gear: Gear)
    requires rates.Loaded() && Sound(p, rates)
    ensures
      var q := Land(p, effect, rates, pick, today, gear);
      && Sound(q, rates)
      && Wealth(q) == Wealth(p) + Max(0, q.level - p.level)
           - (if effect.Hurt? && Kills(p, effect.amount, rates, gear) && Total(p.stats) > 0 then 1 else 0)
      && (effect.Paid? ==>
            && q.totalsDay == Some(today)
            && q.xpToday == SyncToday(p, today).xpToday + (Standing(q, rates) - Standing(p, rates))
            && q.goldToday == SyncToday(p, today).goldToday + (q.gold - p.gold)
            && Standing(q, rates) - Standing(p, rates) == AppliedXp(p, effect.xp, rates, today)
            && q.gold - p.gold == AppliedGold(p, effect.gold, rates, today))
      && (!effect.Paid? ==>
            && Standing(q, rates) <= Standing(p, rates) && q.gold <= p.gold
            && q.totalsDay == p.totalsDay && q.xpToday == p.xpToday && q.goldToday == p.goldToday)
  {
    hide LevelUps, Death;
    match effect {
      case Paid(xp, gold) => PayLaw(p, xp, gold, rates, today);
      case Hurt(amount) =>
        var q := p.(hp := p.hp - HpLost(p, amount, rates, gear));
        if q.hp <= 0.0 { DeathLaw(q, pick, rates); }
      case Untouched =>
    }
  }

  lemma PayLaw(p: Profile, xp: int, gold: real, rates: Rates, today: Day)
    requires rates.Loaded() && Sound(p, rates)
    ensures
      var q := Pay(p, xp, gold, rates, today);
      && Sound(q, rates)
      && q.stats == p.stats && q.unspent - p.unspent == q.level - p.level >= 0
      && q.totalsDay == Some(today)
      && q.xpToday == SyncToday(p, today).xpToday + (Standing(q, rates) - Standing(p, rates))
      && q.goldToday == SyncToday(p, today).goldToday + (q.gold - p.gold)
      && Standing(q, rates) - Standing(p, rates) == AppliedXp(p, xp, rates, today)
      && q.gold - p.gold == AppliedGold(p, gold, rates, today)
  {
    hide LevelUps, AwardXp, AppliedXp;
    AwardXpLaw(p, xp, rates, today);
    AwardKeepsGoldToday(p, xp, rates, today);
  }

  lemma AwardKeepsGoldToday(p: Profile, xp: int, rates: Rates, today: Day)
    requires rates.Loaded() && p.level >= 1 && p.xp >= 0
    ensures AwardXp(p, xp, rates, today).goldToday == SyncToday(p, today).goldToday
  {
    var q := SyncToday(p, today);
    var applied := AppliedXp(p, xp, rates, today);
    LevelUpsLaw(q.(xp := q.xp + applied, xpToday := q.xpToday + applied), rates);
  }

  // --- One deed --------------------------------------------------------------------------

  predicate Scores(deed: Deed) { deed.Ingested? || deed.Stepped? }

  function Result(p: Profile, deed: Deed, rates: Rates, wall: Day): Option<Profile>
    requires rates.Loaded() && Scores(deed)
  {
    Score(p, deed.ev, rates, deed.roll, deed.pick, BookingDay(p, deed, wall), deed.gear)
  }

  /** Stat points a deed costs: one when it kills somebody who has any allocated. */
  function StatsLost(p: Profile, deed: Deed, rates: Rates, wall: Day): nat
    requires rates.Loaded()
  {
    if Scores(deed) && Result(p, deed, rates, wall).Some? && Blow(deed.ev, rates).Some?
       && Kills(p, Blow(deed.ev, rates).value, rates, deed.gear) && Total(p.stats) > 0
    then 1 else 0
  }

  function LevelsGained(p: Profile, q: Profile): nat { Max(0, q.level - p.level) }

  lemma SpendLaw(p: Profile, deed: Deed, rates: Rates, wall: Day)
    requires rates.Loaded() && Sound(p, rates) && !Scores(deed)
    ensures
      var q := Do(p, deed, rates, wall);
      && Sound(q, rates) && Wealth(q) == Wealth(p) && q.gold <= p.gold
      && q.level == p.level && q.xp == p.xp
      && q.totalsDay == p.totalsDay && q.xpToday == p.xpToday && q.goldToday == p.goldToday
  {
    if deed.Distributed? { DistributeCounts(p); }
  }

  lemma DoLaw(p: Profile, turn: Turn, rates: Rates)
    requires rates.Loaded() && Sound(p, rates)
    ensures
      var q := Do(p, turn.deed, rates, turn.wall);
      && Sound(q, rates)
      && Wealth(q) == Wealth(p) + LevelsGained(p, q) - StatsLost(p, turn.deed, rates, turn.wall)
  {
    hide Score, Sound, Standing, Distribute, Allocate, Respec, SelectClass, Pay, ApplyHpLoss, HpLost, Total, Wealth,
      XpToNext;
    var deed, wall := turn.deed, turn.wall;
    if !Scores(deed) {
      SpendLaw(p, deed, rates, wall);
    } else if Result(p, deed, rates, wall).Some? {
      var today := BookingDay(p, deed, wall);
      var effect := ScoreLands(p, deed.ev, rates, deed.roll, deed.pick, today, deed.gear);
      LandLaw(p, effect, rates, deed.pick, today, deed.gear);
    }
  }

  // --- Whole careers -----------------------------------------------------------------------

  function LevelsOver(p: Profile, turns: seq<Turn>, rates: Rates): nat
    requires rates.Loaded()
    decreases |turns|
  {
    if turns == [] then 0
    else
      var q := Do(p, turns[0].deed, rates, turns[0].wall);
      LevelsGained(p, q) + LevelsOver(q, turns[1..], rates)
  }

  function LostOver(p: Profile, turns: seq<Turn>, rates: Rates): nat
    requires rates.Loaded()
    decreases |turns|
  {
    if turns == [] then 0
    else
      StatsLost(p, turns[0].deed, rates, turns[0].wall)
      + LostOver(Do(p, turns[0].deed, rates, turns[0].wall), turns[1..], rates)
  }

  /** Over any career the points owned are the points at the start, plus a point per level
      gained, less a point per death that had one to take; and level, hp, gold and the stat
      cap stay in their bounds. */
  lemma {:induction false} PointsConserved(p: Profile, turns: seq<Turn>, rates: Rates)
    requires rates.Loaded() && Sound(p, rates)
    ensures
      var q := After(p, turns, rates);
      && Sound(q, rates)
      && Wealth(q) == Wealth(p) + LevelsOver(p, turns, rates) - LostOver(p, turns, rates)
    decreases |turns|
  {
    hide Do, Sound, Wealth, StatsLost, LevelsGained;
    if turns != [] {
      DoLaw(p, turns[0], rates);
      PointsConserved(Do(p, turns[0].deed, rates, turns[0].wall), turns[1..], rates);
    }
  }

  /** The class unlock is sticky: neither deaths nor respecs take it back, so whoever once had
      a class can always pick one again. */
  ghost predicate Unlocked(p: Profile) { p.class_.Some? ==> p.unlocked }

  lemma DoKeepsUnlock(p: Profile, turn: Turn, rates: Rates)
    requires rates.Loaded() && Sound(p, rates) && Unlocked(p)
    ensures
      var q := Do(p, turn.deed, rates, turn.wall);
      Unlocked(q) && (p.unlocked ==> q.unlocked)
  {
    hide Score, Sound, Distribute, Allocate;
    var deed, wall := turn.deed, turn.wall;
    if Scores(deed) && Result(p, deed, rates, wall).Some? {
      var today := BookingDay(p, deed, wall);
      var effect := ScoreLands(p, deed.ev, rates, deed.roll, deed.pick, today, deed.gear);
      LandKeepsClass(p, effect, rates, deed.pick, today, deed.gear);
    } else if deed.Distributed? {
      DistributeCounts(p);
    } else if deed.Allocated? {
      AllocateKeepsClass(p, deed.points);
    }
  }

  lemma AllocateKeepsClass(p: Profile, points: map<int, int>)
    ensures Allocate(p, points).Some? ==>
              Allocate(p, points).value.class_ == p.class_ && Allocate(p, points).value.unlocked == p.unlocked
  {}

  lemma LandKeepsClass(p: Profile, effect: Effect, rates: Rates, pick: nat, today: Day, gear: Gear)
    requires rates.Loaded() && Sound(p, rates)
    ensures
      var q := Land(p, effect, rates, pick, today, gear);
      q.class_ == p.class_ && q.unlocked == p.unlocked
  {
    if effect.Paid? {
      var q := SyncToday(p, today);
      var applied := AppliedXp(p, effect.xp, rates, today);
      LevelUpsLaw(q.(xp := q.xp + applied, xpToday := q.xpToday + applied), rates);
    }
  }

  lemma {:induction false} UnlockSticks(p: Profile, turns: seq<Turn>, rates: Rates, klass: Class)
    requires rates.Loaded() && Sound(p, rates) && Unlocked(p) && p.unlocked
    ensures
      var q := After(p, turns, rates);
      q.unlocked && (SelectClass(q, Some(klass)).Some? <==> q.class_.None?)
    decreases |turns|
  {
    hide Do, Sound, Unlocked;
    if turns != [] {
      DoLaw(p, turns[0], rates);
      DoKeepsUnlock(p, turns[0], rates);
      UnlockSticks(Do(p, turns[0].deed, rates, turns[0].wall), turns[1..], rates, klass);
    }
  }
}
