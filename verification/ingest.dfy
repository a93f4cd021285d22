/** Batch ingestion of client events: dedupe by id, order by client timestamp with the
    submission order breaking ties, score one by one. */
module Ingest {
  import opened Basics
  import opened Economy
  import opened Character

  type Instant = int

  /** `body` is None for a claim the server cannot resolve: it is recorded unscored. */
  datatype ClientEvent = ClientEvent(id: string, ts: Instant, body: Option<Event>)

  datatype LedgerRow = LedgerRow(id: string, ts: Instant, body: Option<Event>, scored: bool)

  datatype Account = Account(profile: Profile, rows: seq<LedgerRow>)

  /** The random draws and the gear in force when a ledger row is written. */
  datatype Draw = Draw(roll: real, pick: nat, gear: Gear)

  function Ids(rows: seq<LedgerRow>): set<string> { set r | r in rows :: r.id }

  // --- The order --------------------------------------------------------------------------

  /** An event with its place in the submission. */
  datatype Indexed = Indexed(idx: nat, event: ClientEvent)

  predicate Before(a: Indexed, b: Indexed) {
    a.event.ts < b.event.ts || (a.event.ts == b.event.ts && a.idx < b.idx)
  }

  ghost predicate InOrder(s: seq<Indexed>) { forall i, j :: 0 <= i < j < |s| ==> Before(s[i], s[j]) }

  /** Puts a later submission into its place: after everything not newer than it. */
  function Insert(s: seq<Indexed>, x: Indexed): seq<Indexed> {
    if s == [] || s[|s| - 1].event.ts <= x.event.ts then s + [x]
    else Insert(s[..|s| - 1], x) + [s[|s| - 1]]
  }

  function Ordered(events: seq<ClientEvent>): seq<Indexed> {
    if events == [] then []
    else Insert(Ordered(events[..|events| - 1]), Indexed(|events| - 1, events[|events| - 1]))
  }

  lemma SameElements<T>(s: seq<T>, t: seq<T>, x: T)
    requires multiset(s) == multiset(t) && x in s
    ensures x in t
  {
    assert x in multiset(s);
  }

  lemma InOrderLast(s: seq<Indexed>, last: Indexed)
    requires InOrder(s) && forall y :: y in s ==> Before(y, last)
    ensures InOrder(s + [last])
  {
    forall i, j | 0 <= i < j < |s + [last]| ensures Before((s + [last])[i], (s + [last])[j]) {
      if j == |s| { assert s[i] in s; }
    }
  }

  lemma NoneNewer(s: seq<Indexed>, x: Indexed)
    requires InOrder(s) && forall y :: y in s ==> y.idx < x.idx
    requires s != [] ==> s[|s| - 1].event.ts <= x.event.ts
    ensures forall y :: y in s ==> Before(y, x)
  {
    forall y | y in s ensures Before(y, x) {
      var i :| 0 <= i < |s| && s[i] == y;
      if i < |s| - 1 { assert Before(s[i], s[|s| - 1]); }
    }
  }

  lemma {:induction false} InsertLaw(s: seq<Indexed>, x: Indexed)
    requires InOrder(s) && forall y :: y in s ==> y.idx < x.idx
    ensures InOrder(Insert(s, x)) && multiset(Insert(s, x)) == multiset(s) + multiset{x}
  {
    if s == [] || s[|s| - 1].event.ts <= x.event.ts {
      NoneNewer(s, x);
      InOrderLast(s, x);
    } else {
      var init, last := s[..|s| - 1], s[|s| - 1];
      assert s == init + [last];
      assert forall y :: y in init ==> y in s;
      InsertLaw(init, x);
      InsertedBefore(init, last, Insert(init, x), x);
      InOrderLast(Insert(init, x), last);
    }
  }

  /** A newer last element stays last. */
  lemma InsertedBefore(init: seq<Indexed>, last: Indexed, t: seq<Indexed>, x: Indexed)
    requires InOrder(init + [last]) && x.event.ts < last.event.ts
    requires multiset(t) == multiset(init) + multiset{x}
    ensures forall y :: y in t ==> Before(y, last)
  {
    forall y | y in t ensures Before(y, last) {
      SameElements(t, init + [x], y);
      if y != x {
        var i :| 0 <= i < |init| && init[i] == y;
        assert Before((init + [last])[i], (init + [last])[|init|]);
      }
    }
  }

  /** The submission, each event under its own number. */
  function Numbered(events: seq<ClientEvent>): seq<Indexed> {
    seq(|events|, i requires 0 <= i < |events| => Indexed(i, events[i]))
  }

  lemma NumberedGrows(events: seq<ClientEvent>)
    requires events != []
    ensures
      var init := events[..|events| - 1];
      Numbered(events) == Numbered(init) + [Indexed(|init|, events[|init|])]
      && forall y :: y in Numbered(init) ==> y.idx < |init|
  {}

  /** The order used is the one sorted arrangement of the submission. */
  lemma {:induction false} OrderedLaw(events: seq<ClientEvent>)
    ensures InOrder(Ordered(events)) && multiset(Ordered(events)) == multiset(Numbered(events))
  {
    hide Numbered, InOrder, Insert;
    if events == [] {
      NothingNumbered();
    } else {
      var init := events[..|events| - 1];
      OrderedLaw(init);
      NumberedGrows(events);
      forall y | y in Ordered(init) ensures y.idx < |init| {
        SameElements(Ordered(init), Numbered(init), y);
      }
      InsertLaw(Ordered(init), Indexed(|init|, events[|init|]));
    }
  }

  lemma NothingNumbered()
    ensures Numbered([]) == [] && InOrder([])
  {}

  // --- Scoring ------------------------------------------------------------------------------

  function Spread(p: Profile): Profile { if p.auto then Distribute(p) else p }

  /** One event: a known id changes nothing, anything else leaves exactly one ledger row. */
  function Accept(a: Account, e: ClientEvent, draws: nat -> Draw, rates: Rates, today: Day): Account
    requires rates.Loaded()
  {
    if e.id in Ids(a.rows) then a
    else
      var draw := draws(|a.rows|);
      var result := if e.body.None? then None
                    else Score(a.profile, e.body.value, rates, draw.roll, draw.pick, today, draw.gear);
      Account(Spread(if result.Some? then result.value else a.profile),
              a.rows + [LedgerRow(e.id, e.ts, e.body, result.Some?)])
  }

  function Fold(a: Account, events: seq<ClientEvent>, draws: nat -> Draw, rates: Rates, today: Day): Account
    requires rates.Loaded()
    decreases |events|
  {
    if events == [] then a else Fold(Accept(a, events[0], draws, rates, today), events[1..], draws, rates, today)
  }

  function Events(s: seq<Indexed>): seq<ClientEvent> {
    seq(|s|, i requires 0 <= i < |s| => s[i].event)
  }

  /** The post-scoring hook runs once when anything was applied. */
  function IngestBatch(a: Account, events: seq<ClientEvent>, draws: nat -> Draw, rates: Rates, today: Day): Account
    requires rates.Loaded()
  {
    var b := Fold(a, Events(Ordered(events)), draws, rates, today);
    if |b.rows| > |a.rows| then b.(profile := Spread(b.profile)) else b
  }

  // --- The post-scoring hook finds nothing left to do ---------------------------------------

  lemma SpreadTwice(p: Profile)
    ensures Spread(Spread(p)) == Spread(p)
  {
    if p.auto { DistributeCounts(p); DistributeTwice(p, 0); }
  }

  lemma {:induction false} FoldEndsSpread(a: Account, events: seq<ClientEvent>, draws: nat -> Draw, rates: Rates,
                                          today: Day)
    requires rates.Loaded()
    ensures
      var b := Fold(a, events, draws, rates, today);
      && |b.rows| >= |a.rows| && b.rows[..|a.rows|] == a.rows
      && (|b.rows| == |a.rows| ==> b == a)
      && (|b.rows| > |a.rows| ==> Spread(b.profile) == b.profile)
      && (Spread(a.profile) == a.profile ==> Spread(b.profile) == b.profile)
    decreases |events|
  {
    hide Spread, Score, Ids;
    if events != [] {
      var next := Accept(a, events[0], draws, rates, today);
      if events[0].id !in Ids(a.rows) { AcceptSpreads(a, events[0], draws, rates, today); }
      FoldEndsSpread(next, events[1..], draws, rates, today);
    }
  }

  lemma AcceptSpreads(a: Account, e: ClientEvent, draws: nat -> Draw, rates: Rates, today: Day)
    requires rates.Loaded() && e.id !in Ids(a.rows)
    ensures
      var b := Accept(a, e, draws, rates, today);
      Spread(b.profile) == b.profile && |b.rows| == |a.rows| + 1 && b.rows[..|a.rows|] == a.rows
  {
    hide Spread, Score;
    var draw := draws(|a.rows|);
    var result := if e.body.None? then None
                  else Score(a.profile, e.body.value, rates, draw.roll, draw.pick, today, draw.gear);
    SpreadTwice(if result.Some? then result.value else a.profile);
  }

  lemma IngestIsFold(a: Account, events: seq<ClientEvent>, draws: nat -> Draw, rates: Rates, today: Day)
    requires rates.Loaded()
    ensures IngestBatch(a, events, draws, rates, today) == Fold(a, Events(Ordered(events)), draws, rates, today)
  {
    FoldEndsSpread(a, Events(Ordered(events)), draws, rates, today);
  }

  // --- Order of submission does not matter ---------------------------------------------------

  ghost predicate DistinctTimes(events: seq<ClientEvent>) {
    forall i, j :: 0 <= i < j < |events| ==> events[i].ts != events[j].ts
  }

  ghost predicate StrictlySorted(events: seq<ClientEvent>) {
    forall i, j :: 0 <= i < j < |events| ==> events[i].ts < events[j].ts
  }

  lemma TailMultiset(a: seq<ClientEvent>)
    requires a != []
    ensures multiset(a[1..]) == multiset(a) - multiset{a[0]}
  {
    assert a == [a[0]] + a[1..];
  }

  lemma NotNewer(a: seq<ClientEvent>, x: ClientEvent)
    requires StrictlySorted(a) && x in a
    ensures a[0] == x || a[0].ts < x.ts
  {
    var i :| 0 <= i < |a| && a[i] == x;
  }

  lemma {:induction false} SortedUnique(a: seq<ClientEvent>, b: seq<ClientEvent>)
    requires StrictlySorted(a) && StrictlySorted(b) && multiset(a) == multiset(b)
    ensures a == b
    decreases |a|
  {
    assert |multiset(a)| == |a| && |multiset(b)| == |b|;
    if a != [] {
      SameElements(a, b, a[0]);
      SameElements(b, a, b[0]);
      NotNewer(a, b[0]);
      NotNewer(b, a[0]);
      TailMultiset(a);
      TailMultiset(b);
      SortedUnique(a[1..], b[1..]);
    }
  }

  lemma {:induction false} EventsOfInsert(s: seq<Indexed>, x: Indexed)
    ensures multiset(Events(Insert(s, x))) == multiset(Events(s)) + multiset{x.event}
  {
    if s == [] || s[|s| - 1].event.ts <= x.event.ts {
      assert Events(s + [x]) == Events(s) + [x.event];
    } else {
      var init, last := s[..|s| - 1], s[|s| - 1];
      EventsOfInsert(init, x);
      assert Events(Insert(init, x) + [last]) == Events(Insert(init, x)) + [last.event];
      assert Events(s) == Events(init) + [last.event];
    }
  }

  lemma {:induction false} EventsOfOrdered(events: seq<ClientEvent>)
    ensures multiset(Events(Ordered(events))) == multiset(events)
  {
    if events != [] {
      var init := events[..|events| - 1];
      EventsOfOrdered(init);
      EventsOfInsert(Ordered(init), Indexed(|init|, events[|init|]));
      assert events == init + [events[|init|]];
    }
  }

  lemma DistinctOrderIsStrict(events: seq<ClientEvent>)
    requires DistinctTimes(events)
    ensures StrictlySorted(Events(Ordered(events)))
  {
    OrderedLaw(events);
    var s := Ordered(events);
    forall i, j | 0 <= i < j < |s| ensures Events(s)[i].ts < Events(s)[j].ts {
      assert Before(s[i], s[j]);
      SameElements(s, Numbered(events), s[i]);
      SameElements(s, Numbered(events), s[j]);
      assert s[i] == Numbered(events)[s[i].idx] && s[j] == Numbered(events)[s[j].idx];
    }
  }

  lemma TwiceCounted(s: seq<ClientEvent>, i: nat, j: nat)
    requires i < j < |s| && s[i] == s[j]
    ensures multiset(s)[s[j]] >= 2
  {
    assert s == s[..j] + [s[j]] + s[j + 1..];
    assert s[i] in s[..j] by { assert s[..j][i] == s[i]; }
    assert s[j] in multiset(s[..j]);
  }

  lemma CountedOnce(s: seq<ClientEvent>, e: ClientEvent)
    requires DistinctTimes(s)
    ensures multiset(s)[e] <= 1
  {
    if e in s {
      var i :| 0 <= i < |s| && s[i] == e;
      assert s == s[..i] + [s[i]] + s[i + 1..];
      assert e !in s[..i] && e !in s[i + 1..];
      assert e !in multiset(s[..i]) && e !in multiset(s[i + 1..]);
    }
  }

  lemma OneEventPerTime(s: seq<ClientEvent>, d: ClientEvent, e: ClientEvent)
    requires DistinctTimes(s) && d in s && e in s && d.ts == e.ts
    ensures d == e
  {
    var i :| 0 <= i < |s| && s[i] == d;
    var j :| 0 <= j < |s| && s[j] == e;
  }

  lemma PermutedTimesAreDistinct(xs: seq<ClientEvent>, ys: seq<ClientEvent>)
    requires DistinctTimes(xs) && multiset(xs) == multiset(ys)
    ensures DistinctTimes(ys)
  {
    hide DistinctTimes;
    forall i, j | 0 <= i < j < |ys| ensures ys[i].ts != ys[j].ts {
      SameElements(ys, xs, ys[i]);
      SameElements(ys, xs, ys[j]);
      CountedOnce(xs, ys[j]);
      if ys[i] == ys[j] { TwiceCounted(ys, i, j); }
      if ys[i].ts == ys[j].ts { OneEventPerTime(xs, ys[i], ys[j]); }
    }
    DistinctMeans(ys);
  }

  lemma DistinctMeans(s: seq<ClientEvent>)
    requires forall i, j :: 0 <= i < j < |s| ==> s[i].ts != s[j].ts
    ensures DistinctTimes(s)
  {}

  /** A batch with distinct timestamps leaves the same profile and the same ledger in whatever
      order it was submitted. */
  lemma SubmissionOrderIrrelevant(a: Account, xs: seq<ClientEvent>, ys: seq<ClientEvent>, draws: nat -> Draw,
                                  rates: Rates, today: Day)
    requires rates.Loaded() && DistinctTimes(xs) && multiset(xs) == multiset(ys)
    ensures IngestBatch(a, xs, draws, rates, today) == IngestBatch(a, ys, draws, rates, today)
  {
    EventsOfOrdered(xs);
    EventsOfOrdered(ys);
    DistinctOrderIsStrict(xs);
    PermutedTimesAreDistinct(xs, ys);
    DistinctOrderIsStrict(ys);
    SortedUnique(Events(Ordered(xs)), Events(Ordered(ys)));
  }

  // --- Exactly once -----------------------------------------------------------------------------

  lemma AcceptIds(a: Account, e: ClientEvent, draws: nat -> Draw, rates: Rates, today: Day)
    requires rates.Loaded()
    ensures Ids(Accept(a, e, draws, rates, today).rows) == Ids(a.rows) + {e.id}
  {
    hide Score, Spread;
    var b := Accept(a, e, draws, rates, today);
    if e.id !in Ids(a.rows) {
      assert b.rows[|a.rows|].id == e.id;
      forall id | id in Ids(a.rows) + {e.id} ensures id in Ids(b.rows) {
        if id != e.id {
          var r :| r in a.rows && r.id == id;
          assert r in b.rows;
        } else {
          assert b.rows[|a.rows|] in b.rows;
        }
      }
    }
  }

  ghost predicate OneRowPerId(rows: seq<LedgerRow>) {
    forall i, j :: 0 <= i < j < |rows| ==> rows[i].id != rows[j].id
  }

  /** Ids never repeat in the ledger, and every id of the batch is in it afterwards. */
  lemma {:induction false} FoldIds(a: Account, events: seq<ClientEvent>, draws: nat -> Draw, rates: Rates, today: Day)
    requires rates.Loaded() && OneRowPerId(a.rows)
    ensures
      var b := Fold(a, events, draws, rates, today);
      OneRowPerId(b.rows) && Ids(b.rows) == Ids(a.rows) + (set e | e in events :: e.id)
    decreases |events|
  {
    hide Ids;
    if events != [] {
      AcceptIds(a, events[0], draws, rates, today);
      AcceptKeepsOne(a, events[0], draws, rates, today);
      FoldIds(Accept(a, events[0], draws, rates, today), events[1..], draws, rates, today);
      assert events == [events[0]] + events[1..];
    }
  }

  lemma AcceptKeepsOne(a: Account, e: ClientEvent, draws: nat -> Draw, rates: Rates, today: Day)
    requires rates.Loaded() && OneRowPerId(a.rows)
    ensures OneRowPerId(Accept(a, e, draws, rates, today).rows)
  {
    hide Score, Spread;
    assert forall i :: 0 <= i < |a.rows| ==> a.rows[i] in a.rows && a.rows[i].id in Ids(a.rows);
  }

  lemma {:induction false} KnownIdsChangeNothing(a: Account, events: seq<ClientEvent>, draws: nat -> Draw, rates: Rates,
                                                 today: Day)
    requires rates.Loaded() && forall e :: e in events ==> e.id in Ids(a.rows)
    ensures Fold(a, events, draws, rates, today) == a
    decreases |events|
  {
    if events != [] {
      assert events[0] in events && forall e :: e in events[1..] ==> e in events;
      KnownIdsChangeNothing(a, events[1..], draws, rates, today);
    }
  }

  /** Sending a batch again, reordered or in part, on any later day, changes nothing. */
  lemma ReIngestIsNothing(a: Account, events: seq<ClientEvent>, again: seq<ClientEvent>, draws: nat -> Draw,
                          redraws: nat -> Draw, rates: Rates, today: Day, later: Day)
    requires rates.Loaded() && OneRowPerId(a.rows)
    requires forall e :: e in again ==> e in events
    ensures
      var b := IngestBatch(a, events, draws, rates, today);
      IngestBatch(b, again, redraws, rates, later) == b && OneRowPerId(b.rows)
  {
    hide Fold, Ordered, Ids;
    var b := IngestBatch(a, events, draws, rates, today);
    IngestIsFold(a, events, draws, rates, today);
    FoldIds(a, Events(Ordered(events)), draws, rates, today);
    EventsOfOrdered(events);
    EventsOfOrdered(again);
    forall e | e in Events(Ordered(again)) ensures e.id in Ids(b.rows) {
      SameElements(Events(Ordered(again)), again, e);
      SameElements(events, Events(Ordered(events)), e);
    }
    KnownIdsChangeNothing(b, Events(Ordered(again)), redraws, rates, later);
    IngestIsFold(b, again, redraws, rates, later);
  }

  // --- Batches compose ------------------------------------------------------------------------

  lemma {:induction false} FoldAppend(a: Account, xs: seq<ClientEvent>, ys: seq<ClientEvent>, draws: nat -> Draw,
                                      rates: Rates, today: Day)
    requires rates.Loaded()
    ensures Fold(a, xs + ys, draws, rates, today) == Fold(Fold(a, xs, draws, rates, today), ys, draws, rates, today)
    decreases |xs|
  {
    if xs == [] {
      assert xs + ys == ys;
    } else {
      assert (xs + ys)[0] == xs[0] && (xs + ys)[1..] == xs[1..] + ys;
      FoldAppend(Accept(a, xs[0], draws, rates, today), xs[1..], ys, draws, rates, today);
    }
  }

  lemma EventsGrow(s: seq<Indexed>, x: Indexed)
    ensures Events(s + [x]) == Events(s) + [x.event]
  {}

  /** Inserting looks at timestamps only, so a prefix nothing is newer in stays where it is. */
  lemma {:induction false} InsertBehind(s: seq<Indexed>, older: seq<ClientEvent>, q: seq<Indexed>, x: Indexed, y: Indexed)
    requires Events(s) == older + Events(q) && x.event == y.event
    requires forall e :: e in older ==> e.ts <= x.event.ts
    ensures Events(Insert(s, x)) == older + Events(Insert(q, y))
    decreases |q|
  {
    assert |s| == |Events(s)| == |older| + |q|;
    EventsGrow(s, x);
    EventsGrow(q, y);
    if q == [] {
      if s != [] { assert s[|s| - 1].event == Events(s)[|s| - 1] == older[|s| - 1]; }
    } else {
      var s0, q0 := s[..|s| - 1], q[..|q| - 1];
      assert s[|s| - 1].event == Events(s)[|s| - 1] == (older + Events(q))[|s| - 1] == q[|q| - 1].event;
      if s[|s| - 1].event.ts > x.event.ts {
        assert Events(s0) == Events(s)[..|s| - 1] == older + Events(q0);
        InsertBehind(s0, older, q0, x, y);
        EventsGrow(Insert(s0, x), s[|s| - 1]);
        EventsGrow(Insert(q0, y), q[|q| - 1]);
      }
    }
  }

  lemma OrderedNext(events: seq<ClientEvent>, e: ClientEvent)
    ensures Ordered(events + [e]) == Insert(Ordered(events), Indexed(|events|, e))
  {
    hide Insert;
    assert (events + [e])[..|events|] == events;
  }

  lemma {:induction false} OrderedAppend(older: seq<ClientEvent>, newer: seq<ClientEvent>)
    requires forall x, y :: x in older && y in newer ==> x.ts <= y.ts
    ensures Events(Ordered(older + newer)) == Events(Ordered(older)) + Events(Ordered(newer))
  {
    hide Ordered, Insert, Events;
    if newer == [] {
      assert older + newer == older;
      NothingOrdered(older);
    } else {
      var init, e := newer[..|newer| - 1], newer[|newer| - 1];
      assert newer == init + [e] && older + newer == (older + init) + [e];
      assert forall y :: y in init ==> y in newer;
      OrderedAppend(older, init);
      OrderedNext(init, e);
      OrderedNext(older + init, e);
      EventsOfOrdered(older);
      forall x | x in Events(Ordered(older)) ensures x.ts <= e.ts {
        SameElements(Events(Ordered(older)), older, x);
        assert e in newer;
      }
      InsertBehind(Ordered(older + init), Events(Ordered(older)), Ordered(init),
                   Indexed(|older + init|, e), Indexed(|init|, e));
    }
  }

  lemma NothingOrdered(older: seq<ClientEvent>)
    ensures Events(Ordered(older)) == Events(Ordered(older)) + Events(Ordered([]))
  {}

  /** A backlog split into an older and a newer batch on one day lands like the whole. */
  lemma SplitBacklog(a: Account, older: seq<ClientEvent>, newer: seq<ClientEvent>, draws: nat -> Draw, rates: Rates,
                     today: Day)
    requires rates.Loaded()
    requires forall x, y :: x in older && y in newer ==> x.ts <= y.ts
    ensures IngestBatch(IngestBatch(a, older, draws, rates, today), newer, draws, rates, today)
         == IngestBatch(a, older + newer, draws, rates, today)
  {
    hide Fold, Ordered, Events;
    OrderedAppend(older, newer);
    IngestIsFold(a, older, draws, rates, today);
    IngestIsFold(IngestBatch(a, older, draws, rates, today), newer, draws, rates, today);
    IngestIsFold(a, older + newer, draws, rates, today);
    FoldAppend(a, Events(Ordered(older)), Events(Ordered(newer)), draws, rates, today);
  }

  // --- One event -----------------------------------------------------------------------------------

  /** A known id changes nothing. A new one leaves one row with what the event said and whether it
      scored; the profile is the scored one, with its points spent when they are spent
      automatically. */
  lemma OneEventLaw(a: Account, e: ClientEvent, draws: nat -> Draw, rates: Rates, today: Day)
    requires rates.Loaded()
    ensures
      var b := IngestBatch(a, [e], draws, rates, today);
      if exists r :: r in a.rows && r.id == e.id then b == a
      else
        var draw := draws(|a.rows|);
        var result := if e.body.None? then None
                      else Score(a.profile, e.body.value, rates, draw.roll, draw.pick, today, draw.gear);
        var p := if result.Some? then result.value else a.profile;
        && b.rows == a.rows + [LedgerRow(e.id, e.ts, e.body, result.Some?)]
        && b.profile == if p.auto then Distribute(p) else p
  {
    hide Score, Distribute;
    OrderedNext([], e);
    assert [] + [e] == [e] && Ordered([]) == [];
    assert Events(Ordered([e])) == [e];
    IngestIsFold(a, [e], draws, rates, today);
    assert [e][1..] == [];
    assert Fold(a, [e], draws, rates, today) == Accept(a, e, draws, rates, today);
  }
}
