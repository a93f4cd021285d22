/** The profile row, changed in place the way the scoring engine and the character service
    change it. */
module ProfileObjects {
  import opened Basics
  import opened Economy
  import opened Character

  lemma LevelUpsTurn(p: Profile, rates: Rates)
    requires rates.Loaded()
    ensures LevelUps(p, rates) == if p.xp >= XpToNext(p.level, rates) then LevelUps(OneLevel(p, rates), rates) else p
  {}

  lemma DistributeTurn(p: Profile)
    ensures
      Distribute(p) ==
      if p.unspent == 0 || Total(p.stats) >= STAT_POINT_CAP then p
      else
        var k := Order(p.class_)[Lowest(p.stats, Order(p.class_))];
        Distribute(p.(stats := p.stats[k := p.stats[k] + 1], unspent := p.unspent - 1))
  {}

  class GameProfile {
    var level: int
    var xp: int
    var hp: real
    var maxHp: real
    var gold: real
    var stats: Stats
    var unspent: nat
    var gameClass: Option<Class>
    var unlocked: bool
    var auto: bool
    var xpToday: int
    var goldToday: real
    var totalsDay: Option<Day>

    constructor (p: Profile)
      ensures Value() == p
    {
      level, xp, hp, maxHp, gold := p.level, p.xp, p.hp, p.maxHp, p.gold;
      stats, unspent, gameClass, unlocked, auto := p.stats, p.unspent, p.class_, p.unlocked, p.auto;
      xpToday, goldToday, totalsDay := p.xpToday, p.goldToday, p.totalsDay;
    }

    /** The row as a value. */
    function Value(): Profile
      reads this
    {
      Profile(level, xp, hp, maxHp, gold, stats, unspent, gameClass, unlocked, auto, xpToday, goldToday, totalsDay)
    }

    method SyncTotals(today: Day)
      modifies this
      ensures Value() == SyncToday(old(Value()), today)
    {
      if totalsDay != Some(today) {
        totalsDay := Some(today);
        xpToday := 0;
        goldToday := 0.0;
      }
    }

    method EarnXp(amount: int, rates: Rates, today: Day) returns (applied: int, levelsGained: int)
      requires rates.Loaded()
      modifies this
      ensures Value() == AwardXp(old(Value()), amount, rates, today)
      ensures applied == AppliedXp(old(Value()), amount, rates, today)
      ensures levelsGained == level - old(level)
    {
      hide LevelUps, XpToNext;
      SyncTotals(today);
      applied := Max(0, Min(amount, rates.dailyXpCap - xpToday));
      xp := xp + applied;
      xpToday := xpToday + applied;
      levelsGained := 0;
      ghost var start := Value();
      while xp >= XpToNext(level, rates)
        invariant LevelUps(Value(), rates) == LevelUps(start, rates)
        invariant levelsGained == level - old(level)
        decreases xp
      {
        LevelUpsTurn(Value(), rates);
        xp := xp - XpToNext(level, rates);
        level := level + 1;
        levelsGained := levelsGained + 1;
        hp := maxHp;
        unspent := unspent + 1;
      }
      LevelUpsTurn(Value(), rates);
    }

    method EarnGold(amount: real, rates: Rates, today: Day) returns (applied: real)
      modifies this
      ensures Value() == AwardGold(old(Value()), amount, rates, today)
      ensures applied == AppliedGold(old(Value()), amount, rates, today)
    {
      SyncTotals(today);
      applied := MaxR(0.0, MinR(amount, rates.dailyGoldCap - goldToday));
      gold := gold + applied;
      goldToday := goldToday + applied;
    }

    /** The revive cascade; `pick` is the random draw among the stats that can lose a point. */
    method Die(pick: nat) returns (lost: Option<nat>)
      modifies this
      ensures Value() == Death(old(Value()), pick)
      ensures lost == StatLost(old(stats), pick)
    {
      level := Max(1, level - 1);
      xp := 0;
      gold := 0.0;
      hp := maxHp;
      lost := StatLost(stats, pick);
      if lost.Some? {
        stats := stats[lost.value := stats[lost.value] - 1];
      }
    }

    method LoseHp(amount: real, rates: Rates, pick: nat, gear: Gear) returns (loss: real, died: bool)
      requires rates.Loaded()
      modifies this
      ensures Value() == ApplyHpLoss(old(Value()), amount, rates, pick, gear)
      ensures loss >= 1.0 && (died <==> old(hp) <= loss)
      ensures !died ==> hp == old(hp) - loss
    {
      loss := HpLost(Value(), amount, rates, gear);
      hp := hp - loss;
      died := hp <= 0.0;
      if died {
        var _ := Die(pick);
      }
    }

    method AllocatePoints(points: map<int, int>) returns (ok: bool)
      modifies this
      ensures ok <==> Allocate(old(Value()), points).Some?
      ensures Value() == if ok then Allocate(old(Value()), points).value else old(Value())
    {
      ok := false;
      if !ValidPoints(points) {
        return;
      }
      var total := Spent(points);
      if total > unspent {
        return;
      }
      if Total(stats) + total > STAT_POINT_CAP {
        return;
      }
      ok := true;
      var k := 0;
      while k < 4
        invariant 0 <= k <= 4 && |stats| == 4
        invariant forall j :: 0 <= j < k ==> stats[j] == old(stats)[j] + Points(points, j)
        invariant forall j :: k <= j < 4 ==> stats[j] == old(stats)[j]
        invariant Value() == old(Value()).(stats := stats)
      {
        stats := stats[k := stats[k] + Points(points, k)];
        k := k + 1;
      }
      unspent := unspent - total;
      assert stats == Allocate(old(Value()), points).value.stats;
    }

    method DistributeUnspent() returns (given: nat)
      modifies this
      ensures Value() == Distribute(old(Value()))
      ensures given == Min(old(unspent), Max(0, STAT_POINT_CAP - Total(old(stats))))
    {
      hide Distribute, Total, Order, Lowest;
      var order := Order(gameClass);
      given := 0;
      while unspent > 0
        invariant gameClass == old(gameClass)
        invariant Distribute(Value()) == Distribute(old(Value()))
        invariant given + unspent == old(unspent)
        decreases unspent
      {
        DistributeTurn(Value());
        if Total(stats) >= STAT_POINT_CAP {
          break;
        }
        var pick := order[Lowest(stats, order)];
        stats := stats[pick := stats[pick] + 1];
        unspent := unspent - 1;
        given := given + 1;
      }
      DistributeTurn(Value());
      DistributeCounts(old(Value()));
    }

    method ChooseClass(klass: Option<Class>) returns (ok: bool)
      modifies this
      ensures ok <==> SelectClass(old(Value()), klass).Some?
      ensures Value() == if ok then SelectClass(old(Value()), klass).value else old(Value())
    {
      ok := klass.Some? && gameClass.None? && (unlocked || level >= CLASS_MIN_LEVEL);
      if ok {
        gameClass := klass;
        unlocked := true;
      }
    }

    method RespecStats(rates: Rates) returns (ok: bool)
      modifies this
      ensures ok <==> Respec(old(Value()), rates).Some?
      ensures Value() == if ok then Respec(old(Value()), rates).value else old(Value())
    {
      ok := gameClass.Some? && gold >= rates.respecCost;
      if ok {
        gold := gold - rates.respecCost;
        gameClass := None;
        var refunded := 0;
        var k := 0;
        while k < 4
          invariant 0 <= k <= 4 && |stats| == 4
          invariant forall j :: 0 <= j < k ==> stats[j] == 0
          invariant forall j :: k <= j < 4 ==> stats[j] == old(stats)[j]
          invariant refunded == Total(old(stats)) - Total(stats)
          invariant Value() == old(Value()).(gold := old(gold) - rates.respecCost, class_ := None, stats := stats)
        {
          refunded := refunded + stats[k];
          stats := stats[k := 0];
          k := k + 1;
        }
        assert stats == [0, 0, 0, 0] && refunded == Total(old(stats));
        unspent := unspent + refunded;
      }
    }

    /** Scores one event; a rejected payload is found out before anything is touched. */
    method ApplyEvent(ev: Event, rates: Rates, roll: real, pick: nat, today: Day, gear: Gear) returns (ok: bool)
      requires rates.Loaded()
      modifies this
      ensures ok <==> Score(old(Value()), ev, rates, roll, pick, today, gear).Some?
      ensures Value() == if ok then Score(old(Value()), ev, rates, roll, pick, today, gear).value else old(Value())
    {
      var p := Value();
      var crit := CritMult(roll, Effective(p, STR, gear), rates);
      match ev {
        case FocusDone(minutes, difficulty) =>
          ok := Usable(minutes) && difficulty.Some?;
          if ok {
            Receive(FocusXp(p, minutes, difficulty.value, crit, rates, gear),
                    FocusGold(p, minutes, difficulty.value, crit, rates, gear), rates, today);
          }
        case SpeedrunDone(minutes, difficulty, winBonus) =>
          ok := Usable(minutes) && difficulty.Some?;
          if ok {
            Receive(SpeedrunXp(p, minutes, difficulty.value, crit, winBonus, rates, gear),
                    FocusGold(p, minutes, difficulty.value, crit, rates, gear), rates, today);
          }
        case GoodHabit(delta, difficulty) =>
          ok := difficulty.Some?;
          if ok {
            Receive(HabitXp(p, delta, difficulty.value, crit, rates, gear),
                    HabitGold(p, delta, difficulty.value, crit, rates, gear), rates, today);
          }
        case BadHabit(delta, difficulty) =>
          ok := difficulty.Some?;
          if ok {
            var _, _ := LoseHp(Harm(delta, difficulty.value, rates), rates, pick, gear);
          }
        case Damage(amount, difficulty) =>
          ok := if amount.Some? then Usable(amount.value) else difficulty.Some?;
          if ok {
            var base := if amount.Some? then amount.value else Harm(1.0, difficulty.value, rates);
            var _, _ := LoseHp(base, rates, pick, gear);
          }
        case StopwatchMilestone(milestones) =>
          ok := 1 <= milestones <= 100;
          if ok {
            var _, _ := EarnXp(MilestoneXp(milestones, crit, rates), rates, today);
          }
        case DailyCheck(share, streak, paidShare, paidXp, paidGold, difficulty) =>
          ok := 0.0 < share <= 1.0 && streak >= 0 && paidShare >= 0.0 && paidXp >= 0.0 && paidGold >= 0.0
            && difficulty.Some?;
          if ok {
            var part := ClampShare(share, paidShare);
            Receive(CheckXp(XpBase(p, difficulty.value, crit, rates, gear), part, paidXp),
                    CheckGold(GoldBase(p, difficulty.value, crit, streak, rates, gear), part, paidGold), rates, today);
          }
        case DailyMissed(difficulty) =>
          ok := difficulty.Some?;
          if ok {
            var _, _ := LoseHp(Harm(1.0, difficulty.value, rates), rates, pick, gear);
          }
        case Marker => ok := true;
      }
    }

    method Receive(xpAmount: int, goldAmount: real, rates: Rates, today: Day)
      requires rates.Loaded()
      modifies this
      ensures Value() == Pay(old(Value()), xpAmount, goldAmount, rates, today)
    {
      var _, _ := EarnXp(xpAmount, rates, today);
      var _ := EarnGold(goldAmount, rates, today);
    }
  }
}
