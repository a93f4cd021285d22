/** The scoring engine over values: every award and loss of the game. Amounts that the
    source keeps as floats are exact reals here. */
module Economy {
  import opened Basics

  datatype Class = Warrior | Mage | Healer | Rogue

  const STAT_POINT_CAP := 100

  /** Allocated points in the order str, int, con, per. */
  type Stats = s: seq<nat> | |s| == 4 witness [0, 0, 0, 0]

  /** Bonus of the equipped gear, in the same order. */
  type Gear = s: seq<nat> | |s| == 4 witness [0, 0, 0, 0]

  const STR := 0
  const INT := 1
  const CON := 2
  const PER := 3

  datatype Profile = Profile(
    level: int, xp: int, hp: real, maxHp: real, gold: real,
    stats: Stats, unspent: nat, class_: Option<Class>, unlocked: bool, auto: bool,
    xpToday: int, goldToday: real, totalsDay: Option<Day>)

  datatype Rates = Rates(
    xpPerMinute: real, goldPerMinute: real, intXpPct: real, perGoldPct: real,
    conDivisor: real, conFloor: real,
    critBase: real, critStrScale: real, critMultBase: real, critMultSpan: real, critMultSoft: real, critMultMax: real,
    hpLossBase: real, habitXpFactor: real,
    dailyXpCap: int, dailyGoldCap: real,
    milestoneXp: real, winXpBonus: real, respecCost: real,
    curveEarly: real, curveLevel5: real, quadA: real, quadB: real, quadC: real, curveRound: int)
  {
    /** What loading a configuration guarantees. */
    predicate Loaded() {
      && conDivisor > 0.0 && critStrScale > 0.0 && critMultSoft > 0.0
      && curveEarly > 0.0 && curveLevel5 > 0.0 && curveRound > 0
      && milestoneXp >= 0.0 && respecCost >= 0.0 && winXpBonus >= 0.0
    }
  }

  /** The rates of an installation that configures none. */
  const DEFAULTS := Rates(
    1.0, 0.2, 0.025, 0.02, 250.0, 0.1, 0.03, 100.0, 1.5, 4.0, 200.0, 3.0, 2.0, 6.0,
    500, 150.0, 25.0, 25.0, 100.0, 25.0, 150.0, 0.25, 10.0, 139.75, 10)

  const NO_GEAR: Gear := [0, 0, 0, 0]

  const NEWCOMER := Profile(1, 0, 50.0, 50.0, 0.0, [0, 0, 0, 0], 0, None, false, false, 0, 0.0, None)

  // --- Rounding ------------------------------------------------------------------------

  function MaxR(a: real, b: real): real { if a < b then b else a }

  function MinR(a: real, b: real): real { if a < b then a else b }

  /** int(x): toward zero. */
  function Truncate(x: real): int { if x >= 0.0 then x.Floor else -((-x).Floor) }

  function Ceil(x: real): (c: int)
    ensures x <= c as real < x + 1.0
  {
    -((-x).Floor)
  }

  function RoundHalfUp(x: real): (r: int)
    ensures x - 0.5 < r as real <= x + 0.5
  {
    (x + 0.5).Floor
  }

  /** round(x): half to even. */
  function RoundHalfEven(x: real): (r: int)
    ensures x - 0.5 <= r as real <= x + 0.5
  {
    var f := x.Floor;
    var rest := x - f as real;
    if rest < 0.5 || (rest == 0.5 && f % 2 == 0) then f else f + 1
  }

  // --- Levels -----------------------------------------------------------------------------

  function Quadratic(level: real, rates: Rates): real {
    level * level * rates.quadA + level * rates.quadB + rates.quadC
  }

  /** XP from `level` to the next; never below 1, whatever the curve. */
  function XpToNext(level: int, rates: Rates): (t: int)
    requires rates.Loaded()
    ensures t >= 1
  {
    if level < 5 then Max(1, Truncate(rates.curveEarly * level as real))
    else if level == 5 then Max(1, Truncate(rates.curveLevel5))
    else
      Max(1, RoundHalfEven(Quadratic(level as real, rates) / rates.curveRound as real) * rates.curveRound)
  }

  function SyncToday(p: Profile, today: Day): Profile {
    if p.totalsDay == Some(today) then p
    else p.(totalsDay := Some(today), xpToday := 0, goldToday := 0.0)
  }

  function OneLevel(p: Profile, rates: Rates): Profile
    requires rates.Loaded()
  {
    p.(xp := p.xp - XpToNext(p.level, rates), level := p.level + 1, hp := p.maxHp, unspent := p.unspent + 1)
  }

  function LevelUps(p: Profile, rates: Rates): Profile
    requires rates.Loaded()
    decreases p.xp
  {
    if p.xp >= XpToNext(p.level, rates) then LevelUps(OneLevel(p, rates), rates) else p
  }

  function Clamp(amount: int, room: int): int { Max(0, Min(amount, room)) }

  function AppliedXp(p: Profile, amount: int, rates: Rates, today: Day): int {
    Clamp(amount, rates.dailyXpCap - SyncToday(p, today).xpToday)
  }

  function AwardXp(p: Profile, amount: int, rates: Rates, today: Day): Profile
    requires rates.Loaded()
  {
    var q := SyncToday(p, today);
    var applied := AppliedXp(p, amount, rates, today);
    LevelUps(q.(xp := q.xp + applied, xpToday := q.xpToday + applied), rates)
  }

  function AppliedGold(p: Profile, amount: real, rates: Rates, today: Day): real {
    MaxR(0.0, MinR(amount, rates.dailyGoldCap - SyncToday(p, today).goldToday))
  }

  function AwardGold(p: Profile, amount: real, rates: Rates, today: Day): Profile {
    var q := SyncToday(p, today);
    var applied := AppliedGold(p, amount, rates, today);
    q.(gold := q.gold + applied, goldToday := q.goldToday + applied)
  }

  // --- Hit points ----------------------------------------------------------------------------

  function Total(stats: Stats): nat { stats[0] + stats[1] + stats[2] + stats[3] }

  /** The stats that can lose a point, in column order. */
  function Losable(stats: Stats): (ks: seq<nat>)
    ensures forall k :: k in ks ==> k < 4 && stats[k] > 0
    ensures Total(stats) > 0 ==> |ks| > 0
  {
    (if stats[0] > 0 then [0] else []) + (if stats[1] > 0 then [1] else [])
    + (if stats[2] > 0 then [2] else []) + (if stats[3] > 0 then [3] else [])
  }

  /** `pick` is the random draw. */
  function StatLost(stats: Stats, pick: nat): Option<nat> {
    var ks := Losable(stats);
    if |ks| == 0 then None else Some(ks[pick % |ks|])
  }

  function Death(p: Profile, pick: nat): Profile {
    var lost := StatLost(p.stats, pick);
    var q := p.(level := Max(1, p.level - 1), xp := 0, gold := 0.0, hp := p.maxHp);
    if lost.None? then q else q.(stats := p.stats[lost.value := p.stats[lost.value] - 1])
  }

  function Effective(p: Profile, k: nat, gear: Gear): nat
    requires k < 4
  {
    p.stats[k] + gear[k]
  }

  /** The part of a blow that gets through. */
  function Shield(con: nat, rates: Rates): real
    requires rates.Loaded()
  {
    MaxR(rates.conFloor, 1.0 - con as real / rates.conDivisor)
  }

  function Felt(amount: real, shield: real): int { (amount * shield).Floor }

  function HpLost(p: Profile, amount: real, rates: Rates, gear: Gear): (loss: real)
    requires rates.Loaded()
    ensures loss >= 1.0
  {
    MaxR(1.0, Felt(amount, Shield(Effective(p, CON, gear), rates)) as real)
  }

  function ApplyHpLoss(p: Profile, amount: real, rates: Rates, pick: nat, gear: Gear): Profile
    requires rates.Loaded()
  {
    var q := p.(hp := p.hp - HpLost(p, amount, rates, gear));
    if q.hp <= 0.0 then Death(q, pick) else q
  }

  // --- Events -------------------------------------------------------------------------------------

  function CritMult(roll: real, strength: nat, rates: Rates): real
    requires rates.Loaded()
  {
    var chance := rates.critBase * (1.0 + strength as real / rates.critStrScale);
    if roll < chance then
      MinR(rates.critMultBase + rates.critMultSpan * strength as real / (strength as real + rates.critMultSoft),
           rates.critMultMax)
    else 1.0
  }

  /** `difficulty` is the multiplier the name maps to; None is an unknown name. */
  datatype Event =
    | FocusDone(minutes: real, difficulty: Option<real>)
    | SpeedrunDone(minutes: real, difficulty: Option<real>, winBonus: bool)
    | GoodHabit(delta: real, difficulty: Option<real>)
    | BadHabit(delta: real, difficulty: Option<real>)
    | Damage(amount: Option<real>, difficulty: Option<real>)
    | StopwatchMilestone(milestones: int)
    | DailyCheck(share: real, streak: int, paidShare: real, paidXp: real, paidGold: real, difficulty: Option<real>)
    | DailyMissed(difficulty: Option<real>)
    | Marker

  /** Minutes at a rate per minute that a stat raises, before rounding. */
  function PerMinute(minutes: real, rate: real, mult: real, pct: real, points: nat, crit: real): real {
    minutes * rate * mult * (1.0 + pct * points as real) * crit
  }

  function FocusXp(p: Profile, minutes: real, mult: real, crit: real, rates: Rates, gear: Gear): int {
    RoundHalfUp(PerMinute(minutes, rates.xpPerMinute, mult, rates.intXpPct, Effective(p, INT, gear), crit))
  }

  function FocusGold(p: Profile, minutes: real, mult: real, crit: real, rates: Rates, gear: Gear): real {
    Ceil(PerMinute(minutes, rates.goldPerMinute, mult, rates.perGoldPct, Effective(p, PER, gear), crit)) as real
  }

  function SpeedrunXp(p: Profile, minutes: real, mult: real, crit: real, winBonus: bool, rates: Rates, gear: Gear): int
  {
    FocusXp(p, minutes, mult, crit, rates, gear) + if winBonus then RoundHalfUp(rates.winXpBonus) else 0
  }

  /** What a good click is worth before rounding; the points are those of the stat that raises it. */
  function ClickXp(delta: real, mult: real, crit: real, pct: real, points: nat, factor: real): real {
    delta * (1.0 + pct * points as real) * mult * crit * factor
  }

  function ClickGold(delta: real, mult: real, crit: real, pct: real, points: nat): real {
    delta * mult * crit * (1.0 + pct * points as real)
  }

  function HabitXp(p: Profile, delta: real, mult: real, crit: real, rates: Rates, gear: Gear): int {
    RoundHalfUp(ClickXp(delta, mult, crit, rates.intXpPct, Effective(p, INT, gear), rates.habitXpFactor))
  }

  function HabitGold(p: Profile, delta: real, mult: real, crit: real, rates: Rates, gear: Gear): real {
    Ceil(ClickGold(delta, mult, crit, rates.perGoldPct, Effective(p, PER, gear))) as real
  }

  function Harm(weight: real, mult: real, rates: Rates): real { weight * mult * rates.hpLossBase }

  function MilestoneXp(milestones: int, crit: real, rates: Rates): int
  {
    RoundHalfUp(milestones as real * rates.milestoneXp * crit)
  }

  function Pay(p: Profile, xp: int, gold: real, rates: Rates, today: Day): Profile
    requires rates.Loaded()
  {
    AwardGold(AwardXp(p, xp, rates, today), gold, rates, today)
  }

  predicate Usable(x: real) { 0.0 < x <= 1000000.0 }

  /** Shares of one day: never more than the whole-check amount under this roll. */
  function CheckXp(base: real, share: real, paidXp: real): int {
    Truncate(MinR(RoundHalfUp(base * share) as real, MaxR(0.0, RoundHalfUp(base) as real - paidXp)))
  }

  function CheckGold(base: real, share: real, paidGold: real): real {
    MinR(Ceil(base * share) as real, MaxR(0.0, Ceil(base) as real - paidGold))
  }

  function XpBase(p: Profile, mult: real, crit: real, rates: Rates, gear: Gear): real
  {
    (1.0 + rates.intXpPct * Effective(p, INT, gear) as real) * mult * crit * rates.habitXpFactor
  }

  function GoldBase(p: Profile, mult: real, crit: real, streak: int, rates: Rates, gear: Gear): real
  {
    mult * crit * (1.0 + rates.perGoldPct * Effective(p, PER, gear) as real) * (1.0 + 0.01 * Min(streak, 10000) as real)
  }

  function ClampShare(share: real, paid: real): real { MinR(share, MaxR(0.0, 1.0 - paid)) }

  /** None is a rejected payload: nothing has been touched. */
  function Score(p: Profile, ev: Event, rates: Rates, roll: real, pick: nat, today: Day, gear: Gear): Option<Profile>
    requires rates.Loaded()
  {
    var crit := CritMult(roll, Effective(p, STR, gear), rates);
    match ev
    case FocusDone(minutes, difficulty) =>
      if !Usable(minutes) || difficulty.None? then None
      else
        Some(Pay(p, FocusXp(p, minutes, difficulty.value, crit, rates, gear),
                 FocusGold(p, minutes, difficulty.value, crit, rates, gear), rates, today))
    case SpeedrunDone(minutes, difficulty, winBonus) =>
      if !Usable(minutes) || difficulty.None? then None
      else
        Some(Pay(p, SpeedrunXp(p, minutes, difficulty.value, crit, winBonus, rates, gear),
                 FocusGold(p, minutes, difficulty.value, crit, rates, gear), rates, today))
    case GoodHabit(delta, difficulty) =>
      if difficulty.None? then None
      else
        Some(Pay(p, HabitXp(p, delta, difficulty.value, crit, rates, gear),
                 HabitGold(p, delta, difficulty.value, crit, rates, gear), rates, today))
    case BadHabit(delta, difficulty) =>
      if difficulty.None? then None
      else Some(ApplyHpLoss(p, Harm(delta, difficulty.value, rates), rates, pick, gear))
    case Damage(amount, difficulty) =>
      if amount.Some? then
        if !Usable(amount.value) then None else Some(ApplyHpLoss(p, amount.value, rates, pick, gear))
      else if difficulty.None? then None
      else Some(ApplyHpLoss(p, Harm(1.0, difficulty.value, rates), rates, pick, gear))
    case StopwatchMilestone(milestones) =>
      if !(1 <= milestones <= 100) then None
      else Some(AwardXp(p, MilestoneXp(milestones, crit, rates), rates, today))
    case DailyCheck(share, streak, paidShare, paidXp, paidGold, difficulty) =>
      if !(0.0 < share <= 1.0) || streak < 0 || paidShare < 0.0 || paidXp < 0.0 || paidGold < 0.0
         || difficulty.None?
      then None
      else
        var part := ClampShare(share, paidShare);
        Some(Pay(p, CheckXp(XpBase(p, difficulty.value, crit, rates, gear), part, paidXp),
                 CheckGold(GoldBase(p, difficulty.value, crit, streak, rates, gear), part, paidGold), rates, today))
    case DailyMissed(difficulty) =>
      if difficulty.None? then None
      else Some(ApplyHpLoss(p, Harm(1.0, difficulty.value, rates), rates, pick, gear))
    case Marker => Some(p)
  }
}
