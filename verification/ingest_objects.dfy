/** Ingestion as the service runs it: one loop over the ordered batch, changing the profile
    row and appending to the ledger. */
module IngestObjects {
  import opened Basics
  import opened Economy
  import opened ProfileObjects
  import opened Ingest

  datatype Status = Applied | Duplicate

  class GameAccount {
    const profile: GameProfile
    var rows: seq<LedgerRow>

    constructor (p: GameProfile)
      ensures profile == p && rows == []
    {
      profile, rows := p, [];
    }

    function Value(): Account
      reads this, profile
    {
      Account(profile.Value(), rows)
    }

    method AutoDistribute()
      modifies profile
      ensures profile.Value() == Spread(old(profile.Value()))
    {
      if profile.auto {
        var _ := profile.DistributeUnspent();
      }
    }

    /** Returns a status per submitted event, in submission order: applied exactly when the id
        is new to the ledger and nothing ordered before it in the batch carries it. */
    method IngestEvents(events: seq<ClientEvent>, draws: nat -> Draw, rates: Rates, today: Day)
      returns (statuses: map<nat, Status>)
      requires rates.Loaded()
      modifies this, profile
      ensures Value() == IngestBatch(old(Value()), events, draws, rates, today)
      ensures forall k :: 0 <= k < |Ordered(events)| ==>
                var x := Ordered(events)[k];
                x.idx in statuses
                && (statuses[x.idx].Applied? <==>
                      x.event.id !in Ids(old(rows)) && forall j :: 0 <= j < k ==> Ordered(events)[j].event.id != x.event.id)
    {
      hide Score, Fold, Insert, Ids, Spread;
      var ordered := Ordered(events);
      var seen := Ids(rows);
      var appliedAny := false;
      statuses := map[];
      DistinctPlaces(events);
      ghost var start := Value();
      var k := 0;
      while k < |ordered|
        invariant 0 <= k <= |ordered|
        invariant seen == Ids(rows) == Ids(start.rows) + (set j | 0 <= j < k :: ordered[j].event.id)
        invariant Fold(Value(), Events(ordered[k..]), draws, rates, today)
               == Fold(start, Events(ordered), draws, rates, today)
        invariant if appliedAny then |rows| > |start.rows| else rows == start.rows
        invariant forall m :: 0 <= m < k ==>
                    ordered[m].idx in statuses
                    && (statuses[ordered[m].idx].Applied? <==>
                          ordered[m].event.id !in Ids(start.rows)
                          && forall j :: 0 <= j < m ==> ordered[j].event.id != ordered[m].event.id)
      {
        var e := ordered[k].event;
        ghost var here := Value();
        assert Events(ordered[k..])[0] == e && Events(ordered[k..])[1..] == Events(ordered[k + 1..]);
        FoldTurn(here, Events(ordered[k..]), draws, rates, today);
        AcceptIds(here, e, draws, rates, today);
        if e.id in seen {
          statuses := statuses[ordered[k].idx := Duplicate];
        } else {
          var draw := draws(|rows|);
          var ok := false;
          if e.body.Some? {
            ok := profile.ApplyEvent(e.body.value, rates, draw.roll, draw.pick, today, draw.gear);
          }
          rows := rows + [LedgerRow(e.id, e.ts, e.body, ok)];
          AutoDistribute();
          seen := seen + {e.id};
          statuses := statuses[ordered[k].idx := Applied];
          appliedAny := true;
        }
        assert Value() == Accept(here, e, draws, rates, today);
        k := k + 1;
      }
      assert Events(ordered[k..]) == [];
      FoldTurn(Value(), [], draws, rates, today);
      assert ordered[0..] == ordered;
      if appliedAny {
        AutoDistribute();
      }
    }
  }

  lemma FoldTurn(a: Account, events: seq<ClientEvent>, draws: nat -> Draw, rates: Rates, today: Day)
    requires rates.Loaded()
    ensures Fold(a, events, draws, rates, today) ==
      if events == [] then a else Fold(Accept(a, events[0], draws, rates, today), events[1..], draws, rates, today)
  {}

  lemma DistinctPlaces(events: seq<ClientEvent>)
    ensures forall i, j :: 0 <= i < j < |Ordered(events)| ==> Ordered(events)[i].idx != Ordered(events)[j].idx
  {
    OrderedLaw(events);
    var s := Ordered(events);
    forall i, j | 0 <= i < j < |s| ensures s[i].idx != s[j].idx {
      SameElements(s, Numbered(events), s[i]);
      SameElements(s, Numbered(events), s[j]);
      assert s[i] == Numbered(events)[s[i].idx] && s[j] == Numbered(events)[s[j].idx];
      assert Before(s[i], s[j]);
    }
  }
}
