/** Stat points and classes. */
module Character {
  import opened Basics
  import opened Economy

  const CLASS_MIN_LEVEL := 10

  /** A stat key is its place in Stats; anything else is unknown. */
  function Points(points: map<int, int>, k: int): int { if k in points then points[k] else 0 }

  function Spent(points: map<int, int>): int {
    Points(points, STR) + Points(points, INT) + Points(points, CON) + Points(points, PER)
  }

  predicate ValidPoints(points: map<int, int>) {
    |points| > 0 && forall k :: k in points ==> 0 <= k < 4 && 1 <= points[k] <= STAT_POINT_CAP
  }

  /** All checks come before any change. */
  function Allocate(p: Profile, points: map<int, int>): Option<Profile> {
    if !ValidPoints(points) || Spent(points) > p.unspent || Total(p.stats) + Spent(points) > STAT_POINT_CAP then None
    else
      var raised: Stats := [p.stats[0] + Points(points, 0), p.stats[1] + Points(points, 1),
                            p.stats[2] + Points(points, 2), p.stats[3] + Points(points, 3)];
      Some(p.(stats := raised, unspent := p.unspent - Spent(points)))
  }

  /** The stats auto-distribution feeds: the class pair, primary first, or all four. */
  function Order(class_: Option<Class>): (order: seq<nat>)
    ensures |order| > 0 && forall i :: 0 <= i < |order| ==> order[i] < 4
    ensures forall i, j :: 0 <= i < j < |order| ==> order[i] != order[j]
  {
    match class_
    case None => [STR, INT, CON, PER]
    case Some(Warrior) => [STR, CON]
    case Some(Mage) => [INT, PER]
    case Some(Healer) => [CON, INT]
    case Some(Rogue) => [PER, STR]
  }

  /** The place in the order of the lowest stat; the earlier one wins a tie. */
  function Lowest(stats: Stats, order: seq<nat>): (i: nat)
    requires |order| > 0 && forall i :: 0 <= i < |order| ==> order[i] < 4
    ensures i < |order|
    ensures forall j :: 0 <= j < i ==> stats[order[i]] < stats[order[j]]
    ensures forall j :: i <= j < |order| ==> stats[order[i]] <= stats[order[j]]
  {
    if |order| == 1 then 0
    else
      var last := |order| - 1;
      var i := Lowest(stats, order[..last]);
      assert forall j :: 0 <= j < last ==> order[..last][j] == order[j];
      if stats[order[last]] < stats[order[i]] then last else i
  }

  function GivePoint(p: Profile): (q: Profile)
    requires p.unspent > 0
    ensures q == p.(stats := q.stats, unspent := p.unspent - 1)
  {
    var k := Order(p.class_)[Lowest(p.stats, Order(p.class_))];
    p.(stats := p.stats[k := p.stats[k] + 1], unspent := p.unspent - 1)
  }

  function Distribute(p: Profile): Profile
    decreases p.unspent
  {
    if p.unspent == 0 || Total(p.stats) >= STAT_POINT_CAP then p else Distribute(GivePoint(p))
  }

  function SelectClass(p: Profile, klass: Option<Class>): Option<Profile> {
    if klass.None? || p.class_.Some? || (!p.unlocked && p.level < CLASS_MIN_LEVEL) then None
    else Some(p.(class_ := klass, unlocked := true))
  }

  function Respec(p: Profile, rates: Rates): Option<Profile> {
    if p.class_.None? || p.gold < rates.respecCost then None
    else
      Some(p.(gold := p.gold - rates.respecCost, class_ := None, stats := [0, 0, 0, 0],
              unspent := p.unspent + Total(p.stats)))
  }

  // --- Manual allocation -----------------------------------------------------------------------

  /** Both requests in one. */
  function Merged(a: map<int, int>, b: map<int, int>): map<int, int> {
    map k | k in a.Keys + b.Keys :: Points(a, k) + Points(b, k)
  }

  lemma PointsMerge(a: map<int, int>, b: map<int, int>, k: int)
    ensures Points(Merged(a, b), k) == Points(a, k) + Points(b, k)
  {}

  lemma PointsOfValid(a: map<int, int>, k: int)
    requires ValidPoints(a)
    ensures Points(a, k) >= 0 && (k in a ==> 0 <= k < 4 && 1 <= Points(a, k) <= Spent(a))
  {
    assert forall j :: j in a ==> a[j] >= 1;
  }

  lemma SpentMerges(a: map<int, int>, b: map<int, int>)
    ensures Spent(Merged(a, b)) == Spent(a) + Spent(b)
  {
    hide Points, Merged;
    PointsMerge(a, b, STR);
    PointsMerge(a, b, INT);
    PointsMerge(a, b, CON);
    PointsMerge(a, b, PER);
  }

  lemma MergedIsValid(a: map<int, int>, b: map<int, int>)
    requires ValidPoints(a) && ValidPoints(b) && Spent(a) + Spent(b) <= STAT_POINT_CAP
    ensures ValidPoints(Merged(a, b))
  {
    hide Points, Spent;
    var m := Merged(a, b);
    SpentIsPositive(a);
    SpentIsPositive(b);
    NotEmptied(a, b);
    forall k | k in m ensures 0 <= k < 4 && 1 <= m[k] <= STAT_POINT_CAP {
      PointsOfValid(a, k);
      PointsOfValid(b, k);
    }
  }

  lemma NotEmptied(a: map<int, int>, b: map<int, int>)
    requires |a| > 0
    ensures |Merged(a, b)| > 0
  {
    assert Merged(a, b).Keys == a.Keys + b.Keys;
    assert a.Keys != {};
  }

  lemma SpentIsPositive(a: map<int, int>)
    requires ValidPoints(a)
    ensures forall k :: Points(a, k) <= Spent(a)
  {
    hide Spent;
    forall k ensures Points(a, k) <= Spent(a) {
      PointsOfValid(a, k);
      if k !in a { NeverNegative(a); }
    }
  }

  lemma NeverNegative(a: map<int, int>)
    requires ValidPoints(a)
    ensures Spent(a) >= 0
    ensures forall k :: k !in a ==> Points(a, k) == 0
  {}

  lemma AllocateFacts(p: Profile, a: map<int, int>)
    requires Allocate(p, a).Some?
    ensures ValidPoints(a) && Spent(a) <= p.unspent && Total(p.stats) + Spent(a) <= STAT_POINT_CAP
    ensures
      var q := Allocate(p, a).value;
      && q == p.(stats := q.stats, unspent := p.unspent - Spent(a))
      && (forall k :: 0 <= k < 4 ==> q.stats[k] == p.stats[k] + Points(a, k))
      && Total(q.stats) == Total(p.stats) + Spent(a)
  {}

  lemma SameStats(v: Stats, w: Stats)
    requires forall k :: 0 <= k < 4 ==> v[k] == w[k]
    ensures v == w
  {}

  lemma Affordable(p: Profile, a: map<int, int>)
    requires ValidPoints(a) && Spent(a) <= p.unspent && Total(p.stats) + Spent(a) <= STAT_POINT_CAP
    ensures Allocate(p, a).Some?
  {}

  /** Two allocations in a row that both go through are one allocation of their sum; nothing
      is lost, swapped between stats or let past the cap. */
  lemma AllocationsAdd(p: Profile, a: map<int, int>, b: map<int, int>)
    requires Allocate(p, a).Some? && Allocate(Allocate(p, a).value, b).Some?
    ensures Allocate(p, Merged(a, b)) == Allocate(Allocate(p, a).value, b)
    ensures
      var q := Allocate(Allocate(p, a).value, b).value;
      && (forall k :: 0 <= k < 4 ==> q.stats[k] == p.stats[k] + Points(a, k) + Points(b, k))
      && Total(q.stats) + q.unspent == Total(p.stats) + p.unspent && Total(q.stats) <= STAT_POINT_CAP
  {
    hide Allocate, Points, Spent, Merged, ValidPoints, Total;
    var q, m := Allocate(p, a).value, Merged(a, b);
    AllocateFacts(p, a);
    AllocateFacts(q, b);
    SpentMerges(a, b);
    SpentFits(p, a, b);
    MergedIsValid(a, b);
    Affordable(p, m);
    AllocateFacts(p, m);
    forall k | 0 <= k < 4 ensures Allocate(p, m).value.stats[k] == Allocate(q, b).value.stats[k] {
      PointsMerge(a, b, k);
    }
    SameStats(Allocate(p, m).value.stats, Allocate(q, b).value.stats);
  }

  lemma SpentFits(p: Profile, a: map<int, int>, b: map<int, int>)
    requires Total(p.stats) + Spent(a) + Spent(b) <= STAT_POINT_CAP
    ensures Spent(a) + Spent(b) <= STAT_POINT_CAP
  {}

  // --- Distribution is water filling ----------------------------------------------------------

  /** `after` comes from `before` by raising stats of the order as evenly as possible, the
      earlier stat first. */
  ghost predicate Filled(before: Stats, after: Stats, order: seq<nat>)
    requires forall i :: 0 <= i < |order| ==> order[i] < 4
  {
    && (forall k :: 0 <= k < 4 ==> before[k] <= after[k])
    && (forall k :: 0 <= k < 4 && k !in order ==> after[k] == before[k])
    && (forall i, j :: 0 <= i < |order| && 0 <= j < |order| && after[order[j]] > before[order[j]] ==>
          after[order[j]] <= after[order[i]] + if i < j then 0 else 1)
  }

  lemma Ahead(v: Stats, w: Stats) returns (k: nat)
    requires v != w && Total(v) == Total(w)
    ensures k < 4 && v[k] > w[k]
  {
    assert v == [v[0], v[1], v[2], v[3]] && w == [w[0], w[1], w[2], w[3]];
    k := if v[0] > w[0] then 0 else if v[1] > w[1] then 1 else if v[2] > w[2] then 2 else 3;
  }

  lemma LeadersAreClose(before: Stats, after: Stats, order: seq<nat>, i: nat, j: nat)
    requires forall i :: 0 <= i < |order| ==> order[i] < 4
    requires Filled(before, after, order) && i < |order| && j < |order|
    ensures after[order[j]] > before[order[j]] ==> after[order[j]] <= after[order[i]] + if i < j then 0 else 1
  {}

  /** Where one filling is ahead of another, the stat is one of the order, and raised. */
  lemma AheadIsRaised(before: Stats, v: Stats, w: Stats, order: seq<nat>, a: nat) returns (j: nat)
    requires forall i :: 0 <= i < |order| ==> order[i] < 4
    requires Filled(before, v, order) && Filled(before, w, order) && a < 4 && v[a] > w[a]
    ensures j < |order| && order[j] == a && v[a] > before[a]
  {
    j :| 0 <= j < |order| && order[j] == a;
  }

  /** What is filled, and by how much in all, decides the result. */
  lemma FilledUnique(before: Stats, v: Stats, w: Stats, order: seq<nat>)
    requires forall i :: 0 <= i < |order| ==> order[i] < 4
    requires Filled(before, v, order) && Filled(before, w, order) && Total(v) == Total(w)
    ensures v == w
  {
    hide Filled, Total;
    if v != w {
      var a := Ahead(v, w);
      var b := Ahead(w, v);
      var j := AheadIsRaised(before, v, w, order, a);
      var i := AheadIsRaised(before, w, v, order, b);
      LeadersAreClose(before, v, order, i, j);
      LeadersAreClose(before, w, order, j, i);
    }
  }

  lemma TotalAfterOne(stats: Stats, k: nat)
    requires k < 4
    ensures Total(stats[k := stats[k] + 1]) == Total(stats) + 1
  {}

  lemma GiveKeepsFilled(before: Stats, p: Profile)
    requires p.unspent > 0 && Filled(before, p.stats, Order(p.class_))
    ensures Filled(before, GivePoint(p).stats, Order(p.class_))
  {
    var order := Order(p.class_);
    var low := Lowest(p.stats, order);
    var after := GivePoint(p).stats;
    forall i, j | 0 <= i < |order| && 0 <= j < |order| && after[order[j]] > before[order[j]]
      ensures after[order[j]] <= after[order[i]] + if i < j then 0 else 1
    {
      if j == low {
        assert i != low ==> after[order[i]] == p.stats[order[i]];
      } else {
        assert after[order[j]] == p.stats[order[j]];
      }
    }
  }

  lemma {:induction false} DistributeFills(before: Stats, p: Profile)
    requires Filled(before, p.stats, Order(p.class_))
    ensures Filled(before, Distribute(p).stats, Order(p.class_))
    decreases p.unspent
  {
    if p.unspent > 0 && Total(p.stats) < STAT_POINT_CAP {
      GiveKeepsFilled(before, p);
      DistributeFills(before, GivePoint(p));
    }
  }

  lemma {:induction false} DistributeCounts(p: Profile)
    ensures
      var q := Distribute(p);
      var given := Min(p.unspent, Max(0, STAT_POINT_CAP - Total(p.stats)));
      Total(q.stats) == Total(p.stats) + given && q.unspent == p.unspent - given
      && q == p.(stats := q.stats, unspent := q.unspent)
    decreases p.unspent
  {
    if p.unspent > 0 && Total(p.stats) < STAT_POINT_CAP {
      TotalAfterOne(p.stats, Order(p.class_)[Lowest(p.stats, Order(p.class_))]);
      DistributeCounts(GivePoint(p));
    }
  }

  /** Auto-distribution, completely: it assigns what the balance and the cap allow, and the
      result is the one even filling of the order. */
  lemma DistributeLaw(p: Profile, other: Stats)
    ensures
      var q := Distribute(p);
      var given := Min(p.unspent, Max(0, STAT_POINT_CAP - Total(p.stats)));
      && q == p.(stats := q.stats, unspent := p.unspent - given)
      && Total(q.stats) == Total(p.stats) + given
      && Filled(p.stats, q.stats, Order(p.class_))
      && (Filled(p.stats, other, Order(p.class_)) && Total(other) == Total(p.stats) + given ==> other == q.stats)
  {
    DistributeCounts(p);
    DistributeFills(p.stats, p);
    if Filled(p.stats, other, Order(p.class_)) && Total(other) == Total(Distribute(p).stats) {
      FilledUnique(p.stats, other, Distribute(p).stats, Order(p.class_));
    }
  }

  lemma GiveShifts(p: Profile, more: nat)
    requires p.unspent > 0
    ensures GivePoint(p.(unspent := p.unspent + more)) == GivePoint(p).(unspent := GivePoint(p).unspent + more)
  {}

  /** Points that arrive in two batches end where one batch would have put them. */
  lemma {:induction false} DistributeTwice(p: Profile, more: nat)
    ensures
      var q := Distribute(p);
      Distribute(q.(unspent := q.unspent + more)) == Distribute(p.(unspent := p.unspent + more))
    decreases p.unspent
  {
    hide GivePoint, Total;
    if p.unspent > 0 && Total(p.stats) < STAT_POINT_CAP {
      GiveShifts(p, more);
      DistributeTwice(GivePoint(p), more);
    }
  }

  /** The two stats of a class, the one that wins a tie first; without a class all four. */
  predicate Pair(class_: Option<Class>, first: nat, second: nat) {
    match class_
    case Some(Warrior) => first == 0 && second == 2
    case Some(Mage) => first == 1 && second == 3
    case Some(Healer) => first == 2 && second == 1
    case Some(Rogue) => first == 3 && second == 0
    case None => first < second < 4
  }

  lemma PairInOrder(class_: Option<Class>, first: nat, second: nat)
    requires Pair(class_, first, second)
    ensures first < 4 && second < 4
    ensures exists i, j :: 0 <= i < j < |Order(class_)| && Order(class_)[i] == first && Order(class_)[j] == second
    ensures class_.Some? ==> forall k :: k in Order(class_) ==> k == first || k == second
  {
    if class_.None? {
      assert Order(class_)[first] == first && Order(class_)[second] == second;
    } else {
      assert Order(class_)[0] == first && Order(class_)[1] == second;
    }
  }

  /** Auto-distribution raises the stats of the class, and only those, and evens them out: a stat
      that was raised is at most one above the other, and not above it if the other wins ties. */
  lemma DistributePairLaw(p: Profile, first: nat, second: nat)
    requires Pair(p.class_, first, second)
    ensures first < 4 && second < 4
    ensures
      var q := Distribute(p);
      && (forall k :: 0 <= k < 4 ==> p.stats[k] <= q.stats[k])
      && (p.class_.Some? ==> forall k :: 0 <= k < 4 && k != first && k != second ==> q.stats[k] == p.stats[k])
      && (q.stats[first] > p.stats[first] ==> q.stats[first] <= q.stats[second] + 1)
      && (q.stats[second] > p.stats[second] ==> q.stats[second] <= q.stats[first])
  {
    hide Order, Distribute;
    PairInOrder(p.class_, first, second);
    DistributeFills(p.stats, p);
    var i, j :| 0 <= i < j < |Order(p.class_)| && Order(p.class_)[i] == first && Order(p.class_)[j] == second;
    LeadersAreClose(p.stats, Distribute(p).stats, Order(p.class_), i, j);
    LeadersAreClose(p.stats, Distribute(p).stats, Order(p.class_), j, i);
  }

  // --- Classes ----------------------------------------------------------------------------------

  /** All points of a profile as one allocation. */
  function AllOf(stats: Stats): map<int, int> { map k: int | 0 <= k < 4 && stats[k] > 0 :: stats[k] }

  lemma AllOfIsValid(stats: Stats)
    requires 0 < Total(stats) <= STAT_POINT_CAP
    ensures ValidPoints(AllOf(stats)) && Spent(AllOf(stats)) == Total(stats)
    ensures forall k :: 0 <= k < 4 ==> Points(AllOf(stats), k) == stats[k]
  {
    var k := if stats[0] > 0 then 0 else if stats[1] > 0 then 1 else if stats[2] > 0 then 2 else 3;
    assert k in AllOf(stats);
  }

  /** A class can be picked by who has none and has reached level 10, or has had one before; a
      respec is for who has one and the gold. Undone by the same pick and allocation, it has cost
      exactly its price. */
  lemma RespecLaw(p: Profile, klass: Class, rates: Rates)
    ensures SelectClass(p, Some(klass)).Some? <==> p.class_.None? && (p.unlocked || p.level >= 10)
    ensures SelectClass(p, Some(klass)).Some? ==>
      SelectClass(p, Some(klass)).value == p.(class_ := Some(klass), unlocked := true)
    ensures SelectClass(p, None).None?
    ensures Respec(p, rates).Some? <==> p.class_.Some? && p.gold >= rates.respecCost
    ensures Respec(p, rates).Some? && p.unlocked && 0 < Total(p.stats) <= STAT_POINT_CAP ==>
      var q := Respec(p, rates).value;
      && q.stats == [0, 0, 0, 0] && q.unspent == p.unspent + p.stats[0] + p.stats[1] + p.stats[2] + p.stats[3]
      && SelectClass(q, p.class_).Some?
      && Allocate(SelectClass(q, p.class_).value, AllOf(p.stats)) == Some(p.(gold := p.gold - rates.respecCost))
  {
    if Respec(p, rates).Some? && p.unlocked && 0 < Total(p.stats) <= STAT_POINT_CAP {
      AllOfIsValid(p.stats);
      var q := SelectClass(Respec(p, rates).value, p.class_).value;
      hide Points, Spent, ValidPoints;
      Affordable(q, AllOf(p.stats));
      AllocateFacts(q, AllOf(p.stats));
      SameStats(Allocate(q, AllOf(p.stats)).value.stats, p.stats);
    }
  }

  /** An allocation goes through when every stat it names exists and gets 1 to 100 points, the
      balance covers them and no more than 100 end up allocated; it moves exactly these points. */
  lemma AllocateLaw(p: Profile, points: map<int, int>)
    ensures
      var asked := Points(points, 0) + Points(points, 1) + Points(points, 2) + Points(points, 3);
      match Allocate(p, points)
      case None =>
        || points == map[] || (exists k :: k in points && !(0 <= k < 4 && 1 <= points[k] <= 100))
        || asked > p.unspent || p.stats[0] + p.stats[1] + p.stats[2] + p.stats[3] + asked > 100
      case Some(q) =>
        && points != map[] && (forall k :: k in points ==> 0 <= k < 4 && 1 <= points[k] <= 100)
        && asked <= p.unspent && p.stats[0] + p.stats[1] + p.stats[2] + p.stats[3] + asked <= 100
        && q == p.(stats := q.stats, unspent := p.unspent - asked)
        && forall k :: 0 <= k < 4 ==> q.stats[k] == p.stats[k] + Points(points, k)
  {
    assert |points| == 0 <==> points == map[];
  }
}
