/** Laws of the scoring engine. */
module EconomyLaws {
  import opened Basics
  import opened Economy

  // --- What the stats are for ----------------------------------------------------------------

  lemma NotNegative(a: real, b: real)
    requires a >= 0.0 && b > 0.0
    ensures a / b >= 0.0
  {}

  lemma FeltGrows(amount: real, a: real, b: real)
    requires amount >= 0.0 && a <= b
    ensures Felt(amount, a) <= Felt(amount, b)
  {
    assert amount * (b - a) >= 0.0;
  }

  lemma ShieldShrinks(a: nat, b: nat, rates: Rates)
    requires rates.Loaded() && a <= b
    ensures Shield(b, rates) <= Shield(a, rates)
  {
    var x, y, d := a as real, b as real, rates.conDivisor;
    NotNegative(y - x, d);
    assert y / d - x / d == (y - x) / d;
  }

  /** More constitution never costs more hp. */
  lemma ShieldLaw(p: Profile, q: Profile, amount: real, rates: Rates, gear: Gear)
    requires rates.Loaded() && amount >= 0.0
    requires Effective(p, CON, gear) <= Effective(q, CON, gear)
    ensures HpLost(q, amount, rates, gear) <= HpLost(p, amount, rates, gear)
  {
    hide Shield, Effective, Felt;
    var a, b := Effective(p, CON, gear), Effective(q, CON, gear);
    ShieldShrinks(a, b, rates);
    FeltGrows(amount, Shield(b, rates), Shield(a, rates));
  }

  // --- The default curve -----------------------------------------------------------------------

  lemma RoundGrows(x: real, y: real)
    requires x <= y
    ensures RoundHalfEven(x) <= RoundHalfEven(y)
  {}

  lemma QuadraticGrows(l: real)
    requires l >= 6.0
    ensures 207.0 <= Quadratic(l, DEFAULTS) <= Quadratic(l + 1.0, DEFAULTS)
  {
    assert (l + 1.0) * (l + 1.0) == l * l + 2.0 * l + 1.0;
    assert l * l >= 36.0;
  }

  /** Out of the box every level takes at least as much XP as the one before. */
  lemma DefaultCurveRises(level: int)
    requires level >= 1
    ensures DEFAULTS.Loaded() && XpToNext(level, DEFAULTS) <= XpToNext(level + 1, DEFAULTS)
  {
    hide Quadratic, RoundHalfEven;
    if level >= 5 {
      var l := level as real;
      assert (level + 1) as real == l + 1.0;
      if level >= 6 {
        QuadraticGrows(l);
        RoundGrows(Quadratic(l, DEFAULTS) / 10.0, Quadratic(l + 1.0, DEFAULTS) / 10.0);
      } else {
        QuadraticGrows(l + 1.0);
      }
    }
  }

  // --- The level ladder --------------------------------------------------------------------

  /** XP it takes to climb from level 1 to `level`. */
  function LadderBelow(level: int, rates: Rates): (x: int)
    requires rates.Loaded()
    ensures x >= 0
    decreases level
  {
    if level <= 1 then 0 else LadderBelow(level - 1, rates) + XpToNext(level - 1, rates)
  }

  /** All the XP a level and its progress stand for. */
  function Standing(p: Profile, rates: Rates): int
    requires rates.Loaded()
  {
    LadderBelow(p.level, rates) + p.xp
  }

  predicate Settled(p: Profile, rates: Rates)
    requires rates.Loaded()
  {
    p.level >= 1 && 0 <= p.xp < XpToNext(p.level, rates)
  }

  /** The level loop keeps the standing, stops below the next threshold, and hands out one
      point and a full heal per level. */
  lemma {:induction false} LevelUpsLaw(p: Profile, rates: Rates)
    requires rates.Loaded() && p.level >= 1 && p.xp >= 0
    ensures
      var q := LevelUps(p, rates);
      && Settled(q, rates)
      && Standing(q, rates) == Standing(p, rates)
      && q.level >= p.level
      && q == p.(level := q.level, xp := q.xp, unspent := p.unspent + (q.level - p.level),
                 hp := if q.level > p.level then p.maxHp else p.hp)
    decreases p.xp
  {
    if p.xp >= XpToNext(p.level, rates) { LevelUpsLaw(OneLevel(p, rates), rates); }
  }

  /** Level and progress are the only ones that stand for a given amount of XP. */
  lemma CanonicalForm(p: Profile, q: Profile, rates: Rates)
    requires rates.Loaded() && Settled(p, rates) && Settled(q, rates)
    requires Standing(p, rates) == Standing(q, rates)
    ensures p.level == q.level && p.xp == q.xp
  {
    if p.level < q.level { LadderGrows(p.level + 1, q.level, rates); }
    if q.level < p.level { LadderGrows(q.level + 1, p.level, rates); }
  }

  lemma {:induction false} LadderGrows(a: int, b: int, rates: Rates)
    requires rates.Loaded() && a <= b
    ensures LadderBelow(a, rates) <= LadderBelow(b, rates)
    decreases b - a
  {
    if a < b { LadderGrows(a, b - 1, rates); }
  }

  /** An award raises the standing by exactly what the daily cap lets through. */
  lemma AwardXpLaw(p: Profile, amount: int, rates: Rates, today: Day)
    requires rates.Loaded() && p.level >= 1 && p.xp >= 0
    ensures
      var q := AwardXp(p, amount, rates, today);
      var applied := AppliedXp(p, amount, rates, today);
      && Settled(q, rates)
      && Standing(q, rates) == Standing(p, rates) + applied
      && 0 <= applied && (amount >= 0 ==> applied <= amount)
      && q.totalsDay == Some(today) && q.xpToday == SyncToday(p, today).xpToday + applied
      && q.unspent - p.unspent == q.level - p.level >= 0
      && q.stats == p.stats && q.gold == p.gold && q.maxHp == p.maxHp
      && q.hp == (if q.level > p.level then p.maxHp else p.hp)
  {
    var q := SyncToday(p, today);
    var applied := AppliedXp(p, amount, rates, today);
    LevelUpsLaw(q.(xp := q.xp + applied, xpToday := q.xpToday + applied), rates);
  }

  /** Adding progress before or after the level loop comes to the same. */
  lemma {:induction false} LevelUpsAbsorb(p: Profile, more: nat, rates: Rates)
    requires rates.Loaded()
    ensures
      var q := LevelUps(p, rates);
      LevelUps(q.(xp := q.xp + more), rates) == LevelUps(p.(xp := p.xp + more), rates)
    decreases p.xp
  {
    if p.xp >= XpToNext(p.level, rates) {
      LevelUpsAbsorb(OneLevel(p, rates), more, rates);
      assert OneLevel(p.(xp := p.xp + more), rates)
          == OneLevel(p, rates).(xp := OneLevel(p, rates).xp + more);
    }
  }

  lemma {:induction false} LevelUpsIgnoresToday(p: Profile, xpToday: int, rates: Rates)
    requires rates.Loaded()
    ensures LevelUps(p.(xpToday := xpToday), rates) == LevelUps(p, rates).(xpToday := xpToday)
    ensures LevelUps(p, rates).totalsDay == p.totalsDay && LevelUps(p, rates).xpToday == p.xpToday
    decreases p.xp
  {
    if p.xp >= XpToNext(p.level, rates) {
      LevelUpsIgnoresToday(OneLevel(p, rates), xpToday, rates);
      assert OneLevel(p.(xpToday := xpToday), rates) == OneLevel(p, rates).(xpToday := xpToday);
    }
  }

  /** The level loop on a synced profile that has just received `applied`. */
  function Climb(q: Profile, applied: int, rates: Rates): Profile
    requires rates.Loaded()
  {
    LevelUps(q.(xp := q.xp + applied, xpToday := q.xpToday + applied), rates)
  }

  lemma AwardIsClimb(p: Profile, amount: int, rates: Rates, today: Day)
    requires rates.Loaded()
    ensures AwardXp(p, amount, rates, today) == Climb(SyncToday(p, today), AppliedXp(p, amount, rates, today), rates)
    ensures
      var r := AwardXp(p, amount, rates, today);
      r.totalsDay == Some(today) && r.xpToday == SyncToday(p, today).xpToday + AppliedXp(p, amount, rates, today)
  {
    var q := SyncToday(p, today);
    var applied := AppliedXp(p, amount, rates, today);
    LevelUpsIgnoresToday(q.(xp := q.xp + applied, xpToday := q.xpToday + applied), 0, rates);
  }

  lemma ClimbsAdd(q: Profile, x: int, more: nat, rates: Rates)
    requires rates.Loaded()
    ensures Climb(Climb(q, x, rates), more, rates) == Climb(q, x + more, rates)
  {
    hide LevelUps;
    var q1 := q.(xp := q.xp + x, xpToday := q.xpToday + x);
    LevelUpsIgnoresToday(q1, q.xpToday + x + more, rates);
    LevelUpsAbsorb(q1.(xpToday := q.xpToday + x + more), more, rates);
  }

  /** Two awards on one day leave the profile a single award of their sum leaves. */
  lemma AwardsAdd(p: Profile, a: nat, b: nat, rates: Rates, today: Day)
    requires rates.Loaded()
    ensures AwardXp(AwardXp(p, a, rates, today), b, rates, today) == AwardXp(p, a + b, rates, today)
  {
    hide AwardXp, Climb, LevelUps;
    var first := AwardXp(p, a, rates, today);
    var x, y := AppliedXp(p, a, rates, today), AppliedXp(p, a + b, rates, today);
    AwardIsClimb(p, a, rates, today);
    AwardIsClimb(first, b, rates, today);
    AwardIsClimb(p, a + b, rates, today);
    assert SyncToday(first, today) == first;
    assert AppliedXp(first, b, rates, today) == y - x;
    ClimbsAdd(SyncToday(p, today), x, y - x, rates);
  }

  const PENALTY_RATES := DEFAULTS.(xpPerMinute := -1.0)

  /** A negative rate per minute loads, and a focus phase then awards a negative amount. */
  lemma NegativeAward(p: Profile, minutes: int, roll: real, pick: nat, today: Day)
    requires 1 <= minutes <= 1000000 && p.stats == [0, 0, 0, 0] && roll >= 1.0
    ensures PENALTY_RATES.Loaded()
    ensures
      var ev := FocusDone(minutes as real, Some(1.0));
      && FocusXp(p, minutes as real, 1.0, 1.0, PENALTY_RATES, NO_GEAR) == -minutes
      && Score(p, ev, PENALTY_RATES, roll, pick, today, NO_GEAR)
           == Some(Pay(p, -minutes, FocusGold(p, minutes as real, 1.0, 1.0, PENALTY_RATES, NO_GEAR), PENALTY_RATES, today))
  {
    hide Pay, FocusGold;
    assert Effective(p, STR, NO_GEAR) == 0 && Effective(p, INT, NO_GEAR) == 0;
    assert CritMult(roll, 0, PENALTY_RATES) == 1.0;
    assert RoundHalfUp(-(minutes as real)) == -minutes;
    assert FocusXp(p, minutes as real, 1.0, 1.0, PENALTY_RATES, NO_GEAR) == RoundHalfUp(-(minutes as real));
  }

  /** With amounts of either sign, splitting an award is neutral exactly when the signs
      agree, the cap is spent, or the sum fills it. */
  lemma SplitIsNeutralIff(p: Profile, a: int, b: int, rates: Rates, today: Day)
    requires rates.Loaded()
    ensures
      var room := Max(0, rates.dailyXpCap - SyncToday(p, today).xpToday);
      AppliedXp(p, a, rates, today) + AppliedXp(AwardXp(p, a, rates, today), b, rates, today)
        == AppliedXp(p, a + b, rates, today)
      <==> (a >= 0 && b >= 0) || (a <= 0 && b <= 0) || room == 0 || a + b >= room
  {
    var q := SyncToday(p, today);
    var x := AppliedXp(p, a, rates, today);
    LevelUpsIgnoresToday(q.(xp := q.xp + x, xpToday := q.xpToday + x), 0, rates);
  }
}
