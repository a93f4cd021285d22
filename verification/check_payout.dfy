/** What one day of a daily pays when its check is split into fragments. */
module CheckPayout {
  import opened Basics
  import opened Economy
  import opened EconomyLaws
  import opened Career

  /** What the day has paid so far, read back from the ledger. */
  datatype DayPaid = DayPaid(share: real, xp: int, gold: real)

  const NOTHING := DayPaid(0.0, 0, 0.0)

  /** One fragment: the share asked for, the bases its roll and the profile's stats give, and
      what the daily caps still let through. */
  datatype Fragment = Fragment(share: real, xpBase: real, goldBase: real, xpRoom: int, goldRoom: real)

  function PayFragment(paid: DayPaid, f: Fragment): DayPaid {
    var part := ClampShare(f.share, paid.share);
    if part <= 0.0 then paid
    else
      DayPaid(paid.share + part,
              paid.xp + Clamp(CheckXp(f.xpBase, part, paid.xp as real), f.xpRoom),
              paid.gold + MaxR(0.0, MinR(CheckGold(f.goldBase, part, paid.gold), f.goldRoom)))
  }

  function PayAll(paid: DayPaid, fs: seq<Fragment>): DayPaid
    decreases |fs|
  {
    if fs == [] then paid else PayAll(PayFragment(paid, fs[0]), fs[1..])
  }

  /** The most generous whole check among the fragments. */
  function WholeXp(fs: seq<Fragment>): int
    decreases |fs|
  {
    if fs == [] then 0 else Max(RoundHalfUp(fs[0].xpBase), WholeXp(fs[1..]))
  }

  function WholeGold(fs: seq<Fragment>): int
    decreases |fs|
  {
    if fs == [] then 0 else Max(Ceil(fs[0].goldBase), WholeGold(fs[1..]))
  }

  lemma WholeCovers(fs: seq<Fragment>)
    ensures WholeXp(fs) >= 0 && WholeGold(fs) >= 0
    decreases |fs|
  {
    if fs != [] { WholeCovers(fs[1..]); }
  }

  lemma FragmentBounds(paid: DayPaid, f: Fragment)
    requires 0.0 <= paid.share <= 1.0 && paid.xp >= 0 && paid.gold >= 0.0
    ensures
      var next := PayFragment(paid, f);
      && paid.share <= next.share <= 1.0
      && paid.xp <= next.xp <= Max(paid.xp, RoundHalfUp(f.xpBase))
      && paid.gold <= next.gold <= MaxR(paid.gold, Ceil(f.goldBase) as real)
  {
    hide RoundHalfUp, Ceil;
  }

  /** However a day is split, whatever the rolls, it pays no more than the best whole check
      among the fragments would have, and no more than one whole share. */
  lemma {:induction false} FragmentsNeverMint(paid: DayPaid, fs: seq<Fragment>)
    requires 0.0 <= paid.share <= 1.0 && paid.xp >= 0 && paid.gold >= 0.0
    ensures
      var end := PayAll(paid, fs);
      && paid.share <= end.share <= 1.0
      && paid.xp <= end.xp <= Max(paid.xp, WholeXp(fs))
      && paid.gold <= end.gold <= MaxR(paid.gold, WholeGold(fs) as real)
    decreases |fs|
  {
    hide PayFragment;
    if fs != [] {
      FragmentBounds(paid, fs[0]);
      FragmentsNeverMint(PayFragment(paid, fs[0]), fs[1..]);
    }
  }

  // --- Gold rounds up ----------------------------------------------------------------------

  /** Every gold base is at least `low`, and the daily cap is out of each one's reach. A crit
      raises the base of its fragment, the streak day of the completing check that of the last. */
  ghost predicate AtLeast(fs: seq<Fragment>, low: real) {
    forall f :: f in fs ==> f.goldBase >= low && f.goldRoom >= Ceil(f.goldBase) as real
  }

  function Times(a: real, b: real): real { a * b }

  lemma TimesLaws(base: real, low: real, part: real)
    requires base >= low >= 0.0 && part >= 0.0
    ensures Times(base, part) >= Times(low, part) >= 0.0
  {
    assert (base - low) * part >= 0.0;
    assert low * part >= 0.0;
    assert base * part == (base - low) * part + low * part;
  }

  lemma SplitBase(goldBase: real, a: real, b: real)
    ensures Times(goldBase, a + b) == Times(goldBase, a) + Times(goldBase, b)
    ensures Times(goldBase, 1.0) == goldBase
  {}

  lemma ShareOfBase(goldBase: real, share: real)
    requires goldBase >= 0.0 && 0.0 <= share <= 1.0
    ensures 0.0 <= Times(goldBase, share) <= goldBase
  {
    hide Times;
    TimesLaws(goldBase, goldBase, share);
    TimesLaws(goldBase, goldBase, 1.0 - share);
    SplitBase(goldBase, share, 1.0 - share);
    assert share + (1.0 - share) == 1.0;
  }

  /** The gold paid is a whole number of coins that covers the share paid. */
  ghost predicate Covers(paid: DayPaid, coins: int, low: real) {
    && 0.0 <= paid.share <= 1.0 && paid.xp >= 0
    && paid.gold == coins as real && coins >= 0
    && coins as real >= Times(low, paid.share)
  }

  lemma InCoins(goldBase: real, part: real, coins: int)
    ensures CheckGold(goldBase, part, coins as real)
         == Min(Ceil(Times(goldBase, part)), Max(0, Ceil(goldBase) - coins)) as real
  {
    var asked, whole := Ceil(goldBase * part), Ceil(goldBase);
    assert whole as real - coins as real == (whole - coins) as real;
    assert CheckGold(goldBase, part, coins as real)
        == MinR(asked as real, MaxR(0.0, whole as real - coins as real));
  }

  lemma FragmentCovers(paid: DayPaid, coins: int, f: Fragment, low: real) returns (more: int)
    requires low >= 0.0 && Covers(paid, coins, low)
    requires f.goldBase >= low && f.goldRoom >= Ceil(f.goldBase) as real
    ensures Covers(PayFragment(paid, f), more, low)
  {
    hide Ceil, CheckXp, Clamp, RoundHalfUp, CheckGold, Times;
    FragmentBounds(paid, f);
    var part := ClampShare(f.share, paid.share);
    more := coins;
    if part > 0.0 {
      var got := Min(Ceil(Times(f.goldBase, part)), Max(0, Ceil(f.goldBase) - coins));
      SplitBase(low, paid.share, part);
      TimesLaws(f.goldBase, low, part);
      ShareOfBase(low, paid.share + part);
      InCoins(f.goldBase, part, coins);
      more := coins + got;
    }
  }

  lemma {:induction false} FragmentsCover(paid: DayPaid, coins: int, fs: seq<Fragment>, low: real) returns (more: int)
    requires low >= 0.0 && Covers(paid, coins, low) && AtLeast(fs, low)
    ensures Covers(PayAll(paid, fs), more, low)
    decreases |fs|
  {
    hide PayFragment, Ceil, Times;
    more := coins;
    if fs != [] {
      assert fs[0] in fs;
      assert forall f :: f in fs[1..] ==> f in fs;
      more := FragmentCovers(paid, coins, fs[0], low);
      more := FragmentsCover(PayFragment(paid, fs[0]), more, fs[1..], low);
    }
  }

  /** A day whose shares add up to 1 has paid at least a whole check at the lowest base, and at
      most one at the highest: rounding up neither loses a coin nor mints one. */
  lemma DayPaysInFull(fs: seq<Fragment>, low: real)
    requires low >= 0.0 && AtLeast(fs, low)
    ensures PayAll(NOTHING, fs).gold <= WholeGold(fs) as real
    ensures PayAll(NOTHING, fs).share == 1.0 ==> PayAll(NOTHING, fs).gold >= Ceil(low) as real
  {
    hide Times, PayAll, AtLeast, Ceil, WholeGold, WholeXp;
    SplitBase(low, 0.0, 0.0);
    var coins := FragmentsCover(NOTHING, 0, fs, low);
    FragmentsNeverMint(NOTHING, fs);
    WholeCovers(fs);
    SplitBase(low, 1.0, 0.0);
    if coins as real >= low { WholeCoins(low, coins); }
  }

  lemma WholeCoins(low: real, coins: int)
    requires coins as real >= low
    ensures coins >= Ceil(low)
  {}

  ghost predicate Steady(fs: seq<Fragment>, goldBase: real) {
    forall f :: f in fs ==> f.goldBase == goldBase && f.goldRoom >= Ceil(goldBase) as real
  }

  /** With one gold base it has paid exactly the whole check's gold. */
  lemma SteadyDayPaysExactly(fs: seq<Fragment>, goldBase: real)
    requires goldBase >= 0.0 && Steady(fs, goldBase)
    ensures PayAll(NOTHING, fs).gold <= Ceil(goldBase) as real
    ensures PayAll(NOTHING, fs).share == 1.0 ==> PayAll(NOTHING, fs).gold == Ceil(goldBase) as real
  {
    hide PayAll, Ceil;
    DayPaysInFull(fs, goldBase);
    SteadyWhole(fs, goldBase);
  }

  lemma {:induction false} SteadyWhole(fs: seq<Fragment>, goldBase: real)
    requires goldBase >= 0.0 && Steady(fs, goldBase)
    ensures WholeGold(fs) <= Ceil(goldBase)
    decreases |fs|
  {
    if fs != [] {
      assert fs[0] in fs;
      assert forall f :: f in fs[1..] ==> f in fs;
      SteadyWhole(fs[1..], goldBase);
    }
  }

  // --- XP rounds to the nearest instead ------------------------------------------------------

  ghost predicate SteadyXp(fs: seq<Fragment>, base: real) {
    forall f :: f in fs ==> f.xpBase == base && f.xpRoom >= RoundHalfUp(base)
  }

  /** The rounded parts the fragments ask for, `share` being paid already. */
  function AskedXp(share: real, fs: seq<Fragment>, base: real): int
    decreases |fs|
  {
    if fs == [] then 0
    else
      var part := ClampShare(fs[0].share, share);
      if part <= 0.0 then AskedXp(share, fs[1..], base)
      else RoundHalfUp(Times(base, part)) + AskedXp(share + part, fs[1..], base)
  }

  lemma WholeXpLeft(base: real, part: real, paid: int)
    requires base >= 0.0 && part > 0.0 && 0 <= paid <= RoundHalfUp(base)
    ensures RoundHalfUp(Times(base, part)) >= 0
    ensures CheckXp(base, part, paid as real) == Min(RoundHalfUp(Times(base, part)), RoundHalfUp(base) - paid)
  {
    var asked, whole := RoundHalfUp(base * part), RoundHalfUp(base);
    TimesLaws(base, base, part);
    assert whole as real - paid as real == (whole - paid) as real;
    assert MinR(asked as real, MaxR(0.0, whole as real - paid as real)) == Min(asked, whole - paid) as real;
    WholeTruncates(Min(asked, whole - paid));
  }

  lemma WholeTruncates(n: int)
    requires n >= 0
    ensures Truncate(n as real) == n
  {}

  lemma FragmentXp(paid: DayPaid, f: Fragment, base: real)
    requires base >= 0.0 && 0.0 <= paid.share <= 1.0 && 0 <= paid.xp <= RoundHalfUp(base)
    requires f.xpBase == base && f.xpRoom >= RoundHalfUp(base)
    ensures
      var part, next := ClampShare(f.share, paid.share), PayFragment(paid, f);
      if part <= 0.0 then next == paid
      else
        var asked := RoundHalfUp(Times(base, part));
        asked >= 0 && next.share == paid.share + part <= 1.0
        && next.xp == Min(RoundHalfUp(base), paid.xp + asked)
  {
    hide RoundHalfUp, CheckXp, Times, CheckGold;
    var part := ClampShare(f.share, paid.share);
    if part > 0.0 { WholeXpLeft(base, part, paid.xp); }
  }

  /** With one XP base and the daily cap out of reach, a day has paid the rounded parts it was
      asked for, up to the whole check. */
  lemma {:induction false} XpPaid(paid: DayPaid, fs: seq<Fragment>, base: real)
    requires base >= 0.0 && 0.0 <= paid.share <= 1.0 && 0 <= paid.xp <= RoundHalfUp(base) && SteadyXp(fs, base)
    ensures PayAll(paid, fs).xp == Min(RoundHalfUp(base), paid.xp + AskedXp(paid.share, fs, base))
    ensures AskedXp(paid.share, fs, base) >= 0
    decreases |fs|
  {
    hide RoundHalfUp, PayFragment, Times;
    if fs != [] {
      assert fs[0] in fs;
      assert forall f :: f in fs[1..] ==> f in fs;
      FragmentXp(paid, fs[0], base);
      XpPaid(PayFragment(paid, fs[0]), fs[1..], base);
    }
  }

  /** Fragments pay the whole check's XP exactly when the rounded parts they ask for reach it;
      what is missing is missing for good. */
  lemma XpInFullIff(fs: seq<Fragment>, base: real)
    requires base >= 0.0 && SteadyXp(fs, base)
    ensures PayAll(NOTHING, fs).xp == RoundHalfUp(base) <==> AskedXp(0.0, fs, base) >= RoundHalfUp(base)
    ensures PayAll(NOTHING, fs).xp == Min(RoundHalfUp(base), AskedXp(0.0, fs, base))
  {
    XpPaid(NOTHING, fs, base);
  }

  /** Equal parts that fit ask for the same every time. */
  lemma {:induction false} EqualPartsAsk(share: real, fs: seq<Fragment>, base: real, part: real)
    requires part > 0.0 && share + Times(|fs| as real, part) <= 1.0 && share >= 0.0
    requires forall f :: f in fs ==> f.share == part
    ensures AskedXp(share, fs, base) == |fs| * RoundHalfUp(Times(base, part))
    decreases |fs|
  {
    hide RoundHalfUp, Times;
    if fs != [] {
      assert fs[0] in fs;
      assert forall f :: f in fs[1..] ==> f in fs;
      OneMore(|fs| - 1, part);
      EqualPartsAsk(share + part, fs[1..], base, part);
    }
  }

  lemma OneMore(n: nat, part: real)
    requires part > 0.0
    ensures Times((n + 1) as real, part) == Times(n as real, part) + part && Times(n as real, part) >= 0.0
  {}

  /** A checklist of n equal items pays the whole check's XP exactly when n rounded parts do. */
  lemma EqualItemsPayInFullIff(fs: seq<Fragment>, base: real)
    requires base >= 0.0 && SteadyXp(fs, base) && |fs| > 0
    requires forall f :: f in fs ==> f.share == 1.0 / |fs| as real
    ensures PayAll(NOTHING, fs).xp == RoundHalfUp(base)
       <==> |fs| * RoundHalfUp(Times(base, 1.0 / |fs| as real)) >= RoundHalfUp(base)
  {
    hide RoundHalfUp, PayAll;
    var part := 1.0 / |fs| as real;
    assert part > 0.0 && Times(|fs| as real, part) == 1.0;
    EqualPartsAsk(0.0, fs, base, part);
    XpInFullIff(fs, base);
  }

  lemma {:induction false} PayAllThen(paid: DayPaid, a: seq<Fragment>, b: seq<Fragment>)
    ensures PayAll(paid, a + b) == PayAll(PayAll(paid, a), b)
    decreases |a|
  {
    if a == [] {
      assert a + b == b;
    } else {
      assert (a + b)[0] == a[0] && (a + b)[1..] == a[1..] + b;
      PayAllThen(PayFragment(paid, a[0]), a[1..], b);
    }
  }

  // --- The engine pays a fragment ------------------------------------------------------------

  /** The fragment a check event amounts to for this profile, under this roll and cap. */
  function FragmentOf(p: Profile, share: real, streak: nat, mult: real, crit: real, rates: Rates, today: Day, gear: Gear)
    : Fragment
  {
    Fragment(share, XpBase(p, mult, crit, rates, gear), GoldBase(p, mult, crit, streak, rates, gear),
             rates.dailyXpCap - SyncToday(p, today).xpToday, rates.dailyGoldCap - SyncToday(p, today).goldToday)
  }

  /** The streak day that the completing check earns raises the gold base of its own fragment:
      always, as long as it pays gold at all and the streak still counts. */
  lemma StreakRaisesGold(p: Profile, streak: nat, mult: real, crit: real, rates: Rates, gear: Gear)
    requires GoldBase(p, mult, crit, streak, rates, gear) > 0.0
    ensures GoldBase(p, mult, crit, streak + 1, rates, gear) >= GoldBase(p, mult, crit, streak, rates, gear)
    ensures streak < 10000 <==>
      GoldBase(p, mult, crit, streak + 1, rates, gear) > GoldBase(p, mult, crit, streak, rates, gear)
  {
    var a := mult * crit * (1.0 + rates.perGoldPct * Effective(p, PER, gear) as real);
    var before, after := 1.0 + 0.01 * Min(streak, 10000) as real, 1.0 + 0.01 * Min(streak + 1, 10000) as real;
    hide GoldBase, Times;
    GoldBaseIs(p, mult, crit, streak, rates, gear);
    GoldBaseIs(p, mult, crit, streak + 1, rates, gear);
    Raises(a, before, after);
  }

  lemma GoldBaseIs(p: Profile, mult: real, crit: real, streak: int, rates: Rates, gear: Gear)
    ensures GoldBase(p, mult, crit, streak, rates, gear)
         == Times(mult * crit * (1.0 + rates.perGoldPct * Effective(p, PER, gear) as real),
                  1.0 + 0.01 * Min(streak, 10000) as real)
  {}

  lemma Signs(a: real, b: real)
    requires b >= 0.0
    ensures if a <= 0.0 then a * b <= 0.0 else a * b >= 0.0
  {}

  lemma Raises(a: real, before: real, after: real)
    requires Times(a, before) > 0.0 && 0.0 < before <= after
    ensures Times(a, before) <= Times(a, after) && (before < after <==> Times(a, before) < Times(a, after))
  {
    Signs(a, before);
    Signs(a, after - before);
    assert a * after == a * before + a * (after - before);
    if before < after { assert a * (after - before) > 0.0; }
  }

  /** Scoring a check moves the profile by exactly what the fragment adds to the day. */
  lemma ScorePaysFragment(p: Profile, paid: DayPaid, share: real, streak: nat, mult: real, rates: Rates, roll: real,
                          pick: nat, today: Day, gear: Gear)
    requires rates.Loaded() && Sound(p, rates)
    requires 0.0 < share <= 1.0 && 0.0 <= paid.share < 1.0 && paid.xp >= 0 && paid.gold >= 0.0
    ensures
      var ev := DailyCheck(share, streak, paid.share, paid.xp as real, paid.gold, Some(mult));
      var result := Score(p, ev, rates, roll, pick, today, gear);
      var crit := CritMult(roll, Effective(p, STR, gear), rates);
      var next := PayFragment(paid, FragmentOf(p, share, streak, mult, crit, rates, today, gear));
      && result.Some? && Sound(result.value, rates)
      && Standing(result.value, rates) - Standing(p, rates) == next.xp - paid.xp
      && result.value.gold - p.gold == next.gold - paid.gold
      && result.value.totalsDay == Some(today) && result.value.stats == p.stats
      && result.value.xpToday == SyncToday(p, today).xpToday + (next.xp - paid.xp)
  {
    hide XpBase, GoldBase, CritMult, CheckXp, CheckGold, LevelUps, Standing, Sound, AwardXp, AwardGold;
    var crit := CritMult(roll, Effective(p, STR, gear), rates);
    var part := ClampShare(share, paid.share);
    var xp := CheckXp(XpBase(p, mult, crit, rates, gear), part, paid.xp as real);
    var gold := CheckGold(GoldBase(p, mult, crit, streak, rates, gear), part, paid.gold);
    PayLaw(p, xp, gold, rates, today);
  }
}
