/** What every scored event pays or costs: said over the stats, the rates and the counters of the
    profile, by no payout function of the engine. Stats and gear come in the order str, int,
    con, per. */
module PayoutLaws {
  import opened Basics
  import opened Economy
  import opened EconomyLaws
  import opened Career

  function Points(p: Profile, gear: Gear, k: nat): nat
    requires k < 4
  {
    p.stats[k] + gear[k]
  }

  function Raised(pct: real, points: nat): real { 1.0 + pct * points as real }

  function Part(base: real, part: real): real { base * part }

  /** c is the least whole number not below x. */
  predicate RoundsUp(x: real, c: int) { x <= c as real < x + 1.0 }

  /** r is the whole number nearest to x, the greater of two. */
  predicate RoundsOff(x: real, r: int) { x - 0.5 < r as real <= x + 0.5 }

  /** c is x without its fraction. */
  predicate CutsOff(x: real, c: int) {
    if x >= 0.0 then c as real <= x < c as real + 1.0 else c as real - 1.0 < x <= c as real
  }

  /** The profile receives what the day's caps let through of xp and gold: counters start anew on
      a new day, every level gained brings a point and a full heal, and nothing else moves. */
  ghost predicate Receives(p: Profile, q: Profile, xp: int, gold: real, rates: Rates, today: Day)
    requires rates.Loaded()
  {
    var xpBefore := if p.totalsDay == Some(today) then p.xpToday else 0;
    var goldBefore := if p.totalsDay == Some(today) then p.goldToday else 0.0;
    var xpIn := Max(0, Min(xp, rates.dailyXpCap - xpBefore));
    var goldIn := MaxR(0.0, MinR(gold, rates.dailyGoldCap - goldBefore));
    && Settled(q, rates) && Standing(q, rates) == Standing(p, rates) + xpIn && q.level >= p.level
    && q == p.(level := q.level, xp := q.xp, unspent := p.unspent + (q.level - p.level),
               hp := if q.level > p.level then p.maxHp else p.hp,
               gold := p.gold + goldIn, totalsDay := Some(today),
               xpToday := xpBefore + xpIn, goldToday := goldBefore + goldIn)
  }

  lemma PayReceives(p: Profile, xp: int, gold: real, rates: Rates, today: Day)
    requires rates.Loaded() && Sound(p, rates)
    ensures Receives(p, Pay(p, xp, gold, rates, today), xp, gold, rates, today)
  {
    hide LevelUps, XpToNext;
    var q := SyncToday(p, today);
    var applied := AppliedXp(p, xp, rates, today);
    var r := q.(xp := q.xp + applied, xpToday := q.xpToday + applied);
    LevelUpsLaw(r, rates);
    StandingOf(p, r, applied, rates);
  }

  lemma StandingOf(p: Profile, r: Profile, applied: int, rates: Rates)
    requires rates.Loaded() && r.level == p.level && r.xp == p.xp + applied
    ensures Standing(r, rates) == Standing(p, rates) + applied
  {}

  function Curve(level: real, rates: Rates): real {
    level * level * rates.quadA + level * rates.quadB + rates.quadC
  }

  lemma CurveIs(level: real, rates: Rates)
    ensures Quadratic(level, rates) == Curve(level, rates)
  {}

  lemma EarlyCurve(level: int, rates: Rates) returns (n: int)
    requires rates.Loaded() && level <= 5
    ensures XpToNext(level, rates) == Max(1, n)
    ensures CutsOff(if level < 5 then rates.curveEarly * level as real else rates.curveLevel5, n)
  {
    hide Quadratic, RoundHalfEven;
    n := if level < 5 then Truncate(rates.curveEarly * level as real) else Truncate(rates.curveLevel5);
  }

  /** XP to the next level: whole parts of a line and of a constant up to level 5, then the multiple
      of the bucket size nearest to a quadratic curve, the even one of two; at least 1. */
  lemma CurveLaw(level: int, rates: Rates) returns (n: int)
    requires rates.Loaded()
    ensures
      if level <= 5 then
        XpToNext(level, rates) == Max(1, n)
        && CutsOff(if level < 5 then rates.curveEarly * level as real else rates.curveLevel5, n)
      else
        var size, doubled := rates.curveRound as real, 2.0 * Curve(level as real, rates);
        && XpToNext(level, rates) == Max(1, n * rates.curveRound)
        && Part((2 * n - 1) as real, size) <= doubled <= Part((2 * n + 1) as real, size)
        && (doubled == Part((2 * n - 1) as real, size) || doubled == Part((2 * n + 1) as real, size) ==> n % 2 == 0)
  {
    hide Quadratic, Curve, Part, RoundHalfEven, CutsOff, Truncate;
    CurveIs(level as real, rates);
    if level <= 5 {
      n := EarlyCurve(level, rates);
    } else {
      var size := rates.curveRound as real;
      n := RoundHalfEven(Quadratic(level as real, rates) / size);
      NearestBucket(Quadratic(level as real, rates), size, n);
    }
  }

  lemma NearestBucket(curve: real, size: real, n: int)
    requires size > 0.0 && n == RoundHalfEven(curve / size)
    ensures Part((2 * n - 1) as real, size) <= 2.0 * curve <= Part((2 * n + 1) as real, size)
    ensures
      2.0 * curve == Part((2 * n - 1) as real, size) || 2.0 * curve == Part((2 * n + 1) as real, size) ==> n % 2 == 0
  {
    hide RoundHalfEven, Part;
    var x := curve / size;
    TiesToEven(x);
    DoubleBack(curve, size);
    PartsOrder((2 * n - 1) as real, 2.0 * x, size);
    PartsOrder(2.0 * x, (2 * n + 1) as real, size);
  }

  lemma PartsOrder(a: real, b: real, k: real)
    requires k > 0.0
    ensures (a < b <==> Part(a, k) < Part(b, k)) && (a == b <==> Part(a, k) == Part(b, k))
  {
    Scaled(a, b, k);
  }

  lemma DoubleBack(curve: real, size: real)
    requires size > 0.0
    ensures Part(2.0 * (curve / size), size) == 2.0 * curve
  {
    var x := curve / size;
    Over(curve, size);
    assert 2.0 * x * size == 2.0 * (x * size);
  }

  lemma TiesToEven(x: real)
    ensures
      var n := RoundHalfEven(x);
      n as real - 0.5 <= x <= n as real + 0.5 && (x == n as real - 0.5 || x == n as real + 0.5 ==> n % 2 == 0)
  {}

  // --- The crit ----------------------------------------------------------------------------------

  /** A roll below the chance multiplies by base plus span as far as the strength takes it, at most
      the maximum; any other roll by one. The chance grows with the strength. */
  lemma CritLaw(roll: real, strength: nat, rates: Rates)
    requires rates.Loaded()
    ensures
      var s, c := strength as real, CritMult(roll, strength, rates);
      if roll * rates.critStrScale < rates.critBase * (rates.critStrScale + s) then
        && c <= rates.critMultMax
        && (c - rates.critMultBase) * (s + rates.critMultSoft) <= rates.critMultSpan * s
        && (c < rates.critMultMax ==>
              (c - rates.critMultBase) * (s + rates.critMultSoft) == rates.critMultSpan * s)
      else c == 1.0
  {
    var s := strength as real;
    var scale, soft := rates.critStrScale, rates.critMultSoft;
    var chance := rates.critBase * (1.0 + s / scale);
    assert chance * scale == rates.critBase * (scale + s) by { Over(s, scale); TimesOver(rates.critBase, s, scale); }
    Scaled(roll, chance, scale);
    var full := rates.critMultBase + rates.critMultSpan * s / (s + soft);
    Over(rates.critMultSpan * s, s + soft);
    assert (full - rates.critMultBase) * (s + soft) == rates.critMultSpan * s;
    Scaled(CritMult(roll, strength, rates) - rates.critMultBase, full - rates.critMultBase, s + soft);
  }

  lemma Over(a: real, b: real)
    requires b > 0.0
    ensures a / b * b == a
  {}

  lemma TimesOver(k: real, s: real, scale: real)
    requires scale > 0.0
    ensures k * (1.0 + s / scale) * scale == k * (scale + s)
  {
    Over(s, scale);
    assert (1.0 + s / scale) * scale == scale + s;
    Associates(k, 1.0 + s / scale, scale);
  }

  lemma Associates(a: real, b: real, c: real)
    ensures a * b * c == a * (b * c)
  {}

  lemma Scaled(a: real, b: real, k: real)
    requires k > 0.0
    ensures (a < b <==> a * k < b * k) && (a == b <==> a * k == b * k)
  {
    if a < b { assert (b - a) * k > 0.0; }
    if a > b { assert (a - b) * k > 0.0; }
  }

  // --- Payments -----------------------------------------------------------------------------------

  /** What `minutes` are worth at a rate per minute that a stat raises. */
  function Worth(minutes: real, rate: real, mult: real, pct: real, points: nat, crit: real): real {
    minutes * rate * mult * Raised(pct, points) * crit
  }

  lemma RoundsEitherWay(x: real)
    ensures RoundsOff(x, RoundHalfUp(x)) && RoundsUp(x, Ceil(x))
  {}

  lemma WorthIs(minutes: real, rate: real, mult: real, pct: real, points: nat, crit: real)
    ensures PerMinute(minutes, rate, mult, pct, points, crit) == Worth(minutes, rate, mult, pct, points, crit)
  {}

  lemma FocusAmounts(p: Profile, minutes: real, mult: real, crit: real, rates: Rates, gear: Gear)
    returns (xp: int, gold: int)
    ensures FocusXp(p, minutes, mult, crit, rates, gear) == xp
    ensures FocusGold(p, minutes, mult, crit, rates, gear) == gold as real
    ensures RoundsOff(Worth(minutes, rates.xpPerMinute, mult, rates.intXpPct, Points(p, gear, 1), crit), xp)
    ensures RoundsUp(Worth(minutes, rates.goldPerMinute, mult, rates.perGoldPct, Points(p, gear, 3), crit), gold)
  {
    hide RoundHalfUp, Ceil, PerMinute, Worth;
    var i, g := Points(p, gear, 1), Points(p, gear, 3);
    WorthIs(minutes, rates.xpPerMinute, mult, rates.intXpPct, i, crit);
    WorthIs(minutes, rates.goldPerMinute, mult, rates.perGoldPct, g, crit);
    xp := RoundHalfUp(Worth(minutes, rates.xpPerMinute, mult, rates.intXpPct, i, crit));
    gold := Ceil(Worth(minutes, rates.goldPerMinute, mult, rates.perGoldPct, g, crit));
    RoundsEitherWay(Worth(minutes, rates.xpPerMinute, mult, rates.intXpPct, i, crit));
    RoundsEitherWay(Worth(minutes, rates.goldPerMinute, mult, rates.perGoldPct, g, crit));
  }

  lemma StrIs(p: Profile, gear: Gear)
    ensures Effective(p, STR, gear) == Points(p, gear, 0)
  {}

  /** A focus phase pays XP by the minute and int, gold by the minute and per. */
  lemma FocusLaw(p: Profile, minutes: real, difficulty: Option<real>, rates: Rates, roll: real, pick: nat, today: Day,
                 gear: Gear) returns (xp: int, gold: int)
    requires rates.Loaded() && Sound(p, rates)
    ensures
      match Score(p, FocusDone(minutes, difficulty), rates, roll, pick, today, gear)
      case None => !(0.0 < minutes <= 1000000.0) || difficulty.None?
      case Some(q) =>
        && 0.0 < minutes <= 1000000.0 && difficulty.Some?
        && var crit, mult := CritMult(roll, Points(p, gear, 0), rates), difficulty.value;
           && RoundsOff(Worth(minutes, rates.xpPerMinute, mult, rates.intXpPct, Points(p, gear, 1), crit), xp)
           && RoundsUp(Worth(minutes, rates.goldPerMinute, mult, rates.perGoldPct, Points(p, gear, 3), crit), gold)
           && Receives(p, q, xp, gold as real, rates, today)
  {
    hide Pay, Receives, FocusXp, FocusGold, CritMult, Worth, Points, Effective, Sound;
    xp, gold := 0, 0;
    StrIs(p, gear);
    if difficulty.Some? {
      xp, gold := FocusAmounts(p, minutes, difficulty.value, CritMult(roll, Points(p, gear, 0), rates), rates, gear);
      PayReceives(p, xp, gold as real, rates, today);
    }
  }

  /** A finished run pays like a focus phase of its length, and a flat bonus when it earned one. */
  lemma SpeedrunLaw(p: Profile, minutes: real, difficulty: Option<real>, winBonus: bool, rates: Rates, roll: real,
                    pick: nat, today: Day, gear: Gear) returns (xp: int, bonus: int, gold: int)
    requires rates.Loaded() && Sound(p, rates)
    ensures RoundsOff(rates.winXpBonus, bonus)
    ensures
      match Score(p, SpeedrunDone(minutes, difficulty, winBonus), rates, roll, pick, today, gear)
      case None => !(0.0 < minutes <= 1000000.0) || difficulty.None?
      case Some(q) =>
        && 0.0 < minutes <= 1000000.0 && difficulty.Some?
        && var crit, mult := CritMult(roll, Points(p, gear, 0), rates), difficulty.value;
           && RoundsOff(Worth(minutes, rates.xpPerMinute, mult, rates.intXpPct, Points(p, gear, 1), crit), xp)
           && RoundsUp(Worth(minutes, rates.goldPerMinute, mult, rates.perGoldPct, Points(p, gear, 3), crit), gold)
           && Receives(p, q, if winBonus then xp + bonus else xp, gold as real, rates, today)
  {
    hide Pay, Receives, FocusXp, FocusGold, CritMult, Worth, Points, Effective, Sound, RoundHalfUp;
    xp, gold, bonus := 0, 0, RoundHalfUp(rates.winXpBonus);
    StrIs(p, gear);
    if difficulty.Some? {
      xp, gold := FocusAmounts(p, minutes, difficulty.value, CritMult(roll, Points(p, gear, 0), rates), rates, gear);
      PayReceives(p, if winBonus then xp + bonus else xp, gold as real, rates, today);
    }
  }

  function XpOfClick(delta: real, points: nat, mult: real, crit: real, rates: Rates): real {
    delta * Raised(rates.intXpPct, points) * mult * crit * rates.habitXpFactor
  }

  function GoldOfClick(delta: real, points: nat, mult: real, crit: real, rates: Rates): real {
    delta * mult * crit * Raised(rates.perGoldPct, points)
  }

  lemma ClicksAre(delta: real, points: nat, mult: real, crit: real, rates: Rates)
    ensures ClickXp(delta, mult, crit, rates.intXpPct, points, rates.habitXpFactor)
         == XpOfClick(delta, points, mult, crit, rates)
    ensures ClickGold(delta, mult, crit, rates.perGoldPct, points) == GoldOfClick(delta, points, mult, crit, rates)
  {}

  lemma HabitAmounts(p: Profile, delta: real, mult: real, crit: real, rates: Rates, gear: Gear)
    returns (xp: int, gold: int)
    ensures HabitXp(p, delta, mult, crit, rates, gear) == xp
    ensures HabitGold(p, delta, mult, crit, rates, gear) == gold as real
    ensures RoundsOff(XpOfClick(delta, Points(p, gear, 1), mult, crit, rates), xp)
    ensures RoundsUp(GoldOfClick(delta, Points(p, gear, 3), mult, crit, rates), gold)
  {
    hide RoundHalfUp, Ceil, ClickXp, ClickGold, XpOfClick, GoldOfClick;
    ClicksAre(delta, Points(p, gear, 1), mult, crit, rates);
    ClicksAre(delta, Points(p, gear, 3), mult, crit, rates);
    xp := RoundHalfUp(XpOfClick(delta, Points(p, gear, 1), mult, crit, rates));
    gold := Ceil(GoldOfClick(delta, Points(p, gear, 3), mult, crit, rates));
    RoundsEitherWay(XpOfClick(delta, Points(p, gear, 1), mult, crit, rates));
    RoundsEitherWay(GoldOfClick(delta, Points(p, gear, 3), mult, crit, rates));
  }

  /** A good click pays by the drift step of the habit. */
  lemma HabitLaw(p: Profile, delta: real, difficulty: Option<real>, rates: Rates, roll: real, pick: nat, today: Day,
                 gear: Gear) returns (xp: int, gold: int)
    requires rates.Loaded() && Sound(p, rates)
    ensures
      match Score(p, GoodHabit(delta, difficulty), rates, roll, pick, today, gear)
      case None => difficulty.None?
      case Some(q) =>
        && difficulty.Some?
        && var crit, mult := CritMult(roll, Points(p, gear, 0), rates), difficulty.value;
           && RoundsOff(XpOfClick(delta, Points(p, gear, 1), mult, crit, rates), xp)
           && RoundsUp(GoldOfClick(delta, Points(p, gear, 3), mult, crit, rates), gold)
           && Receives(p, q, xp, gold as real, rates, today)
  {
    hide Pay, Receives, HabitXp, HabitGold, CritMult, XpOfClick, GoldOfClick, Points, Effective, Sound;
    xp, gold := 0, 0;
    StrIs(p, gear);
    if difficulty.Some? {
      xp, gold := HabitAmounts(p, delta, difficulty.value, CritMult(roll, Points(p, gear, 0), rates), rates, gear);
      PayReceives(p, xp, gold as real, rates, today);
    }
  }

  /** A milestone of a stopwatch pays XP that no stat but str moves, and no gold. */
  lemma MilestoneLaw(p: Profile, milestones: int, rates: Rates, roll: real, pick: nat, today: Day, gear: Gear)
    returns (xp: int)
    requires rates.Loaded() && Sound(p, rates)
    ensures
      match Score(p, StopwatchMilestone(milestones), rates, roll, pick, today, gear)
      case None => !(1 <= milestones <= 100)
      case Some(q) =>
        && 1 <= milestones <= 100
        && RoundsOff(milestones as real * rates.milestoneXp * CritMult(roll, Points(p, gear, 0), rates), xp)
        && Receives(p, q, xp, 0.0, rates, today)
  {
    hide Pay, AwardXp, Receives, RoundHalfUp, CritMult;
    xp := MilestoneXp(milestones, CritMult(roll, Points(p, gear, 0), rates), rates);
    NoGold(p, xp, rates, today);
    PayReceives(p, xp, 0.0, rates, today);
  }

  /** The whole check's XP and gold before rounding, with this many points in int and in per. */
  function XpOfCheck(points: nat, mult: real, crit: real, rates: Rates): real {
    Raised(rates.intXpPct, points) * mult * crit * rates.habitXpFactor
  }

  function GoldOfCheck(points: nat, mult: real, crit: real, streak: nat, rates: Rates): real {
    mult * crit * Raised(rates.perGoldPct, points) * Raised(0.01, Min(streak, 10000))
  }

  lemma CheckAmounts(p: Profile, mult: real, crit: real, streak: nat, rates: Rates, gear: Gear)
    ensures XpBase(p, mult, crit, rates, gear) == XpOfCheck(Points(p, gear, 1), mult, crit, rates)
    ensures GoldBase(p, mult, crit, streak, rates, gear) == GoldOfCheck(Points(p, gear, 3), mult, crit, streak, rates)
  {}

  lemma CheckParts(base: real, part: real, paid: real) returns (xp: int, askedXp: int, wholeXp: int)
    ensures RoundsOff(Part(base, part), askedXp) && RoundsOff(base, wholeXp)
    ensures CutsOff(MinR(askedXp as real, MaxR(0.0, wholeXp as real - paid)), xp) && CheckXp(base, part, paid) == xp
  {
    hide RoundHalfUp;
    xp, askedXp, wholeXp := CheckXp(base, part, paid), RoundHalfUp(Part(base, part)), RoundHalfUp(base);
    RoundsEitherWay(Part(base, part));
    RoundsEitherWay(base);
    Truncates(MinR(askedXp as real, MaxR(0.0, wholeXp as real - paid)));
  }

  lemma Truncates(x: real)
    ensures CutsOff(x, Truncate(x))
  {}

  lemma CheckCoins(base: real, part: real, paid: real) returns (asked: int, whole: int)
    ensures RoundsUp(Part(base, part), asked) && RoundsUp(base, whole)
    ensures CheckGold(base, part, paid) == MinR(asked as real, MaxR(0.0, whole as real - paid))
  {
    hide Ceil;
    asked, whole := Ceil(Part(base, part)), Ceil(base);
    RoundsEitherWay(Part(base, part));
    RoundsEitherWay(base);
  }

  /** A check pays its part of the whole check, XP off and gold up to whole numbers, as far as the
      day has not paid it; gold grows with the streak. */
  lemma CheckPaysLaw(p: Profile, share: real, streak: int, paidShare: real, paidXp: real, paidGold: real,
                     difficulty: Option<real>, rates: Rates, roll: real, pick: nat, today: Day, gear: Gear)
    returns (xp: int, askedXp: int, wholeXp: int, askedGold: int, wholeGold: int)
    requires rates.Loaded() && Sound(p, rates)
    ensures
      match Score(p, DailyCheck(share, streak, paidShare, paidXp, paidGold, difficulty), rates, roll, pick, today, gear)
      case None =>
        !(0.0 < share <= 1.0) || streak < 0 || paidShare < 0.0 || paidXp < 0.0 || paidGold < 0.0 || difficulty.None?
      case Some(q) =>
        && 0.0 < share <= 1.0 && streak >= 0 && paidShare >= 0.0 && paidXp >= 0.0 && paidGold >= 0.0 && difficulty.Some?
        && var crit, mult := CritMult(roll, Points(p, gear, 0), rates), difficulty.value;
           var part := MinR(share, MaxR(0.0, 1.0 - paidShare));
           var xpBase := XpOfCheck(Points(p, gear, 1), mult, crit, rates);
           var goldBase := GoldOfCheck(Points(p, gear, 3), mult, crit, streak, rates);
           && RoundsOff(Part(xpBase, part), askedXp) && RoundsOff(xpBase, wholeXp)
           && CutsOff(MinR(askedXp as real, MaxR(0.0, wholeXp as real - paidXp)), xp)
           && RoundsUp(Part(goldBase, part), askedGold) && RoundsUp(goldBase, wholeGold)
           && Receives(p, q, xp, MinR(askedGold as real, MaxR(0.0, wholeGold as real - paidGold)), rates, today)
  {
    hide Pay, Receives, CritMult, XpBase, GoldBase, CheckXp, CheckGold, Points, Effective, Sound, RoundsOff,
      RoundsUp, CutsOff, XpOfCheck, GoldOfCheck, Part;
    xp, askedXp, wholeXp, askedGold, wholeGold := 0, 0, 0, 0, 0;
    StrIs(p, gear);
    if difficulty.Some? && streak >= 0 {
      var crit := CritMult(roll, Points(p, gear, 0), rates);
      var part := MinR(share, MaxR(0.0, 1.0 - paidShare));
      CheckAmounts(p, difficulty.value, crit, streak, rates, gear);
      xp, askedXp, wholeXp := CheckParts(XpBase(p, difficulty.value, crit, rates, gear), part, paidXp);
      askedGold, wholeGold := CheckCoins(GoldBase(p, difficulty.value, crit, streak, rates, gear), part, paidGold);
      PayReceives(p, xp, MinR(askedGold as real, MaxR(0.0, wholeGold as real - paidGold)), rates, today);
    }
  }

  predicate Rewards(ev: Event) {
    ev.FocusDone? || ev.SpeedrunDone? || ev.GoodHabit? || ev.DailyCheck? || ev.StopwatchMilestone?
  }

  /** The same payment made to two profiles that stand alike on the day. */
  lemma SamePayment(p: Profile, q: Profile, xp: int, gold: real, xp': int, gold': real, rates: Rates, today: Day)
    requires rates.Loaded() && Sound(p, rates) && Sound(q, rates) && q == p.(stats := q.stats)
    ensures
      var p', q' := Pay(p, xp, gold, rates, today), Pay(q, xp', gold', rates, today);
      && (gold == gold' ==> p'.gold - p.gold == q'.gold - q.gold)
      && (xp == xp' ==> Standing(p', rates) - Standing(p, rates) == Standing(q', rates) - Standing(q, rates))
  {
    hide Pay, Standing, Sound;
    PayLaw(p, xp, gold, rates, today);
    PayLaw(q, xp', gold', rates, today);
  }

  lemma SameBases(p: Profile, q: Profile, mult: real, crit: real, streak: int, rates: Rates, gear: Gear)
    ensures p.stats[1] == q.stats[1] ==> XpBase(p, mult, crit, rates, gear) == XpBase(q, mult, crit, rates, gear)
    ensures p.stats[3] == q.stats[3] ==>
      GoldBase(p, mult, crit, streak, rates, gear) == GoldBase(q, mult, crit, streak, rates, gear)
  {}

  /** No stat but per moves the gold of a reward and none but int its XP, the crit aside, which str
      decides: two profiles that differ in the other stats alone earn the same. */
  lemma OtherStatsDontPay(p: Profile, q: Profile, ev: Event, rates: Rates, roll: real, pick: nat, today: Day, gear: Gear)
    requires rates.Loaded() && Sound(p, rates) && Sound(q, rates) && Rewards(ev)
    requires q == p.(stats := q.stats) && q.stats[0] == p.stats[0]
    ensures
      match Score(p, ev, rates, roll, pick, today, gear)
      case None => Score(q, ev, rates, roll, pick, today, gear).None?
      case Some(p') =>
        && Score(q, ev, rates, roll, pick, today, gear).Some?
        && var q' := Score(q, ev, rates, roll, pick, today, gear).value;
           && (p.stats[3] == q.stats[3] ==> p'.gold - p.gold == q'.gold - q.gold)
           && (p.stats[1] == q.stats[1] ==>
                 Standing(p', rates) - Standing(p, rates) == Standing(q', rates) - Standing(q, rates))
  {
    hide Pay, Standing, Sound, CritMult, RoundHalfUp, Ceil, PerMinute, ClickXp, ClickGold, CheckXp, CheckGold, AwardXp;
    var crit := CritMult(roll, Effective(p, STR, gear), rates);
    match ev {
      case FocusDone(minutes, Some(mult)) =>
        SamePayment(p, q, FocusXp(p, minutes, mult, crit, rates, gear), FocusGold(p, minutes, mult, crit, rates, gear),
                    FocusXp(q, minutes, mult, crit, rates, gear), FocusGold(q, minutes, mult, crit, rates, gear),
                    rates, today);
      case SpeedrunDone(minutes, Some(mult), win) =>
        SamePayment(p, q,
                    SpeedrunXp(p, minutes, mult, crit, win, rates, gear), FocusGold(p, minutes, mult, crit, rates, gear),
                    SpeedrunXp(q, minutes, mult, crit, win, rates, gear), FocusGold(q, minutes, mult, crit, rates, gear),
                    rates, today);
      case GoodHabit(delta, Some(mult)) =>
        SamePayment(p, q, HabitXp(p, delta, mult, crit, rates, gear), HabitGold(p, delta, mult, crit, rates, gear),
                    HabitXp(q, delta, mult, crit, rates, gear), HabitGold(q, delta, mult, crit, rates, gear),
                    rates, today);
      case DailyCheck(share, streak, paidShare, paidXp, paidGold, Some(mult)) =>
        var part := ClampShare(share, paidShare);
        SameBases(p, q, mult, crit, streak, rates, gear);
        SamePayment(p, q,
                    CheckXp(XpBase(p, mult, crit, rates, gear), part, paidXp),
                    CheckGold(GoldBase(p, mult, crit, streak, rates, gear), part, paidGold),
                    CheckXp(XpBase(q, mult, crit, rates, gear), part, paidXp),
                    CheckGold(GoldBase(q, mult, crit, streak, rates, gear), part, paidGold), rates, today);
      case StopwatchMilestone(n) =>
        var xp := MilestoneXp(n, crit, rates);
        NoGold(p, xp, rates, today);
        NoGold(q, xp, rates, today);
        SamePayment(p, q, xp, 0.0, xp, 0.0, rates, today);
      case _ =>
    }
  }

  /** Markers only go on the ledger. */
  lemma MarkerLaw(p: Profile, rates: Rates, roll: real, pick: nat, today: Day, gear: Gear)
    requires rates.Loaded()
    ensures Score(p, Marker, rates, roll, pick, today, gear) == Some(p)
  {}

  // --- Losses ----------------------------------------------------------------------------------------

  /** A blow of `amount` costs what the con shield lets through, whole points and at least one; who
      has no hp left dies: a level, all XP and gold, and one allocated point are gone. */
  ghost predicate Suffers(p: Profile, q: Profile, amount: real, felt: int, rates: Rates, gear: Gear)
    requires rates.Loaded()
  {
    var shield := MaxR(rates.conFloor, 1.0 - Points(p, gear, 2) as real / rates.conDivisor);
    var loss := Max(1, felt) as real;
    && felt as real <= amount * shield < felt as real + 1.0
    && if p.hp > loss then q == p.(hp := p.hp - loss)
       else
         && q == p.(level := Max(1, p.level - 1), xp := 0, gold := 0.0, hp := p.maxHp, stats := q.stats)
         && if p.stats == [0, 0, 0, 0] then q.stats == p.stats
            else exists k: nat :: k < 4 && p.stats[k] > 0 && q.stats == p.stats[k := p.stats[k] - 1]
  }

  lemma ShieldIs(p: Profile, amount: real, rates: Rates, gear: Gear) returns (felt: int)
    requires rates.Loaded()
    ensures
      var shield := MaxR(rates.conFloor, 1.0 - Points(p, gear, 2) as real / rates.conDivisor);
      felt as real <= amount * shield < felt as real + 1.0
    ensures HpLost(p, amount, rates, gear) == Max(1, felt) as real
  {
    felt := Felt(amount, Shield(Effective(p, CON, gear), rates));
  }

  lemma LossSuffers(p: Profile, amount: real, rates: Rates, pick: nat, gear: Gear) returns (felt: int)
    requires rates.Loaded()
    ensures Suffers(p, ApplyHpLoss(p, amount, rates, pick, gear), amount, felt, rates, gear)
  {
    hide HpLost, Points, Death;
    felt := ShieldIs(p, amount, rates, gear);
    DeathTakes(p.(hp := p.hp - HpLost(p, amount, rates, gear)), pick);
  }

  lemma DeathTakes(p: Profile, pick: nat)
    ensures
      var q := Death(p, pick);
      && q == p.(level := Max(1, p.level - 1), xp := 0, gold := 0.0, hp := p.maxHp, stats := q.stats)
      && if p.stats == [0, 0, 0, 0] then q.stats == p.stats
         else exists k: nat :: k < 4 && p.stats[k] > 0 && q.stats == p.stats[k := p.stats[k] - 1]
  {
    var lost := StatLost(p.stats, pick);
    if lost.Some? {
      assert lost.value in Losable(p.stats);
    } else {
      assert p.stats == [p.stats[0], p.stats[1], p.stats[2], p.stats[3]];
    }
  }

  lemma LosablePlace(stats: Stats, k: nat) returns (i: nat)
    requires k < 4 && stats[k] > 0
    ensures i < |Losable(stats)| && Losable(stats)[i] == k
  {
    i := (if k > 0 && stats[0] > 0 then 1 else 0) + (if k > 1 && stats[1] > 0 then 1 else 0)
         + (if k > 2 && stats[2] > 0 then 1 else 0);
  }

  /** Any stat with points can be the one that loses a point, and which does is up to the draw. */
  lemma AnyStatCanGo(p: Profile, k: nat) returns (pick: nat)
    requires k < 4 && p.stats[k] > 0
    ensures Death(p, pick).stats == p.stats[k := p.stats[k] - 1]
  {
    hide Losable;
    pick := LosablePlace(p.stats, k);
  }

  /** The weight of a blow: as claimed, or by the difficulty and, for a click, the drift step. */
  function Weight(ev: Event, rates: Rates): real
    requires ev.BadHabit? || ev.Damage? || ev.DailyMissed?
    requires (ev.Damage? && ev.amount.Some?) || ev.difficulty.Some?
  {
    if ev.Damage? && ev.amount.Some? then ev.amount.value
    else (if ev.BadHabit? then ev.delta * ev.difficulty.value else ev.difficulty.value) * rates.hpLossBase
  }

  lemma WeightIs(ev: Event, rates: Rates)
    requires (ev.BadHabit? || ev.Damage? || ev.DailyMissed?) && ev.difficulty.Some?
    ensures !(ev.Damage? && ev.amount.Some?) ==>
      Harm(if ev.BadHabit? then ev.delta else 1.0, ev.difficulty.value, rates) == Weight(ev, rates)
  {}

  /** What a bad click, a claimed damage and a missed unit cost. */
  lemma HurtLaw(p: Profile, ev: Event, rates: Rates, roll: real, pick: nat, today: Day, gear: Gear) returns (felt: int)
    requires rates.Loaded() && (ev.BadHabit? || ev.Damage? || ev.DailyMissed?)
    ensures
      match Score(p, ev, rates, roll, pick, today, gear)
      case None =>
        if ev.Damage? && ev.amount.Some? then !(0.0 < ev.amount.value <= 1000000.0) else ev.difficulty.None?
      case Some(q) =>
        && (if ev.Damage? && ev.amount.Some? then 0.0 < ev.amount.value <= 1000000.0 else ev.difficulty.Some?)
        && Suffers(p, q, Weight(ev, rates), felt, rates, gear)
  {
    hide ApplyHpLoss, Suffers, CritMult, Harm;
    felt := 0;
    if ev.Damage? && ev.amount.Some? {
      felt := LossSuffers(p, Weight(ev, rates), rates, pick, gear);
    } else if ev.difficulty.Some? {
      WeightIs(ev, rates);
      felt := LossSuffers(p, Weight(ev, rates), rates, pick, gear);
    }
  }
}
