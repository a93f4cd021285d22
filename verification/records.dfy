/** The beat-your-best board: the record derived by MIN, the record events a history of runs
    announces, and the single pass that builds the board. */
module Records {
  import opened Basics
  import opened SessionTypes
  import opened SessionEngine

  /** A completed beat_best run of one user. */
  datatype Finish = Finish(activity: string, seconds: int, endedAt: Instant)

  // --- The MIN query -----------------------------------------------------------------------

  predicate Eligible(f: Finish, activity: string) { f.activity == activity && f.seconds >= MIN_RECORD_SECONDS }

  /** The standing record of an activity label: the least eligible time, None when it has never run. */
  function StandingRecord(rows: seq<Finish>, activity: string): Option<int> {
    if rows == [] then None
    else
      var rest := StandingRecord(rows[..|rows| - 1], activity);
      var last := rows[|rows| - 1];
      if !Eligible(last, activity) then rest
      else if rest.None? then Some(last.seconds)
      else Some(Min(rest.value, last.seconds))
  }

  lemma {:induction false} StandingIsLeast(rows: seq<Finish>, activity: string)
    ensures
      var best := StandingRecord(rows, activity);
      && (best.None? <==> forall f :: f in rows ==> !Eligible(f, activity))
      && (best.Some? ==>
            && (forall f :: f in rows && Eligible(f, activity) ==> best.value <= f.seconds)
            && exists f :: f in rows && Eligible(f, activity) && f.seconds == best.value)
  {
    if rows != [] {
      var init, last := rows[..|rows| - 1], rows[|rows| - 1];
      assert rows == init + [last];
      StandingIsLeast(init, activity);
      if StandingRecord(rows, activity).Some?
         && !(Eligible(last, activity) && last.seconds == StandingRecord(rows, activity).value) {
        var f :| f in init && Eligible(f, activity) && f.seconds == StandingRecord(init, activity).value;
        assert f in rows;
      } else if Eligible(last, activity) {
        assert last in rows;
      }
    }
  }

  // --- The record events of a history ----------------------------------------------------------

  /** A record_set event: the value it replaces, the new one, and when. */
  datatype Announcement = Announcement(replaced: Option<int>, seconds: int, at: Instant)

  /** What finishing a run announces, given the rows committed before it. */
  function Announced(before: seq<Finish>, f: Finish): seq<Announcement> {
    var prior := StandingRecord(before, f.activity);
    if IsRecord(f.seconds, prior) then [Announcement(prior, f.seconds, f.endedAt)] else []
  }

  /** The engine's finish emits a record_set step exactly when one is announced. */
  lemma FinishAnnounces(before: seq<Finish>, f: Finish, seqNo: nat, planned: int)
    ensures
      var prior := StandingRecord(before, f.activity);
      var steps := FinishSteps(seqNo, BeatBest, planned, f.seconds, f.endedAt, prior);
      && ((exists st :: st in steps && st.kind.RecordSet?) <==> |Announced(before, f)| == 1)
      && (forall st :: st in steps && st.kind.RecordSet? ==>
            st.extra == NewRecord(prior, f.seconds) && st.at == f.endedAt
            && Announced(before, f) == [Announcement(prior, f.seconds, st.at)])
  {
    var prior := StandingRecord(before, f.activity);
    var steps := FinishSteps(seqNo, BeatBest, planned, f.seconds, f.endedAt, prior);
    if IsRecord(f.seconds, prior) { assert steps[2] in steps && steps[2].kind.RecordSet?; }
  }

  /** The announcements of one activity over a history of finishes, oldest first. */
  function Announcements(history: seq<Finish>, activity: string): seq<Announcement> {
    if history == [] then []
    else
      var init, last := history[..|history| - 1], history[|history| - 1];
      Announcements(init, activity) + if last.activity == activity then Announced(init, last) else []
  }

  /** Record values strictly fall, each names the one before it, and the last is the MIN. */
  lemma {:induction false} RecordsImprove(history: seq<Finish>, activity: string)
    ensures
      var all := Announcements(history, activity);
      && (all == [] <==> StandingRecord(history, activity).None?)
      && (all != [] ==> StandingRecord(history, activity) == Some(all[|all| - 1].seconds) && all[0].replaced == None)
      && (forall i :: 0 <= i < |all| - 1 ==>
            all[i + 1].seconds < all[i].seconds && all[i + 1].replaced == Some(all[i].seconds))
  {
    if history != [] {
      RecordsImprove(history[..|history| - 1], activity);
    }
  }

  /** Finish i is the first to have been committed with this time. */
  ghost predicate FirstWith(history: seq<Finish>, activity: string, seconds: int, i: nat) {
    && i < |history| && Eligible(history[i], activity) && history[i].seconds == seconds
    && forall j :: 0 <= j < i && Eligible(history[j], activity) ==> history[j].seconds != seconds
  }

  lemma RecordIsNew(init: seq<Finish>, run: Finish)
    requires Announced(init, run) != []
    ensures FirstWith(init + [run], run.activity, run.seconds, |init|)
  {
    StandingIsLeast(init, run.activity);
    forall j | 0 <= j < |init| && Eligible(init[j], run.activity) ensures (init + [run])[j].seconds != run.seconds {
      assert init[j] in init;
    }
  }

  /** A tie is no record: the last announcement is the one of the first run committed with the
      best time. */
  lemma {:induction false} RecordSetter(history: seq<Finish>, activity: string) returns (i: nat)
    requires Announcements(history, activity) != []
    ensures
      var last := Announcements(history, activity)[|Announcements(history, activity)| - 1];
      FirstWith(history, activity, last.seconds, i) && last.at == history[i].endedAt
  {
    hide Announced, FirstWith;
    var init, run := history[..|history| - 1], history[|history| - 1];
    assert history == init + [run];
    if run.activity == activity && Announced(init, run) != [] {
      i := |init|;
      RecordIsNew(init, run);
      OneAnnounced(init, run);
    } else {
      i := RecordSetter(init, activity);
      var last := Announcements(init, activity)[|Announcements(init, activity)| - 1];
      assert Announcements(history, activity) == Announcements(init, activity);
      FirstStays(init, run, activity, last.seconds, i);
    }
  }

  lemma OneAnnounced(init: seq<Finish>, run: Finish)
    requires Announced(init, run) != []
    ensures |Announced(init, run)| == 1
    ensures Announced(init, run)[0].seconds == run.seconds && Announced(init, run)[0].at == run.endedAt
  {}

  lemma FirstStays(init: seq<Finish>, run: Finish, activity: string, seconds: int, i: nat)
    requires FirstWith(init, activity, seconds, i)
    ensures FirstWith(init + [run], activity, seconds, i) && (init + [run])[i] == init[i]
  {}

  /** No run that only equals finish i ended before it. */
  ghost predicate NoEarlierTie(history: seq<Finish>, activity: string, i: nat)
    requires i < |history|
  {
    forall j :: i < j < |history| && Eligible(history[j], activity) && history[j].seconds == history[i].seconds ==>
      history[i].endedAt <= history[j].endedAt
  }

  // --- The board -------------------------------------------------------------------------------

  const RECENT := 5

  datatype Best = Best(seconds: int, attempts: nat, setAt: Instant, recent: seq<(int, Instant)>)

  /** The rows of one activity, in the order they come. */
  function Of(rows: seq<Finish>, activity: string): seq<Finish> {
    if rows == [] then []
    else Of(rows[..|rows| - 1], activity) + if rows[|rows| - 1].activity == activity then [rows[|rows| - 1]] else []
  }

  function FirstFew(rows: seq<Finish>): seq<(int, Instant)> {
    seq(Min(RECENT, |rows|), i requires 0 <= i < Min(RECENT, |rows|) => (rows[i].seconds, rows[i].endedAt))
  }

  /** What an activity's line says of its rows: the least time, who held it first, how many runs,
      and the first few of them. */
  ghost predicate Sums(mine: seq<Finish>, b: Best) {
    && (forall f :: f in mine ==> b.seconds <= f.seconds)
    && (exists f :: f in mine && f.seconds == b.seconds && f.endedAt == b.setAt)
    && (forall f :: f in mine && f.seconds == b.seconds ==> b.setAt <= f.endedAt)
    && b.attempts == |mine|
    && b.recent == FirstFew(mine)
  }

  /** Folding in one more row, with the two branches of the pass. */
  function Note(b: Best, f: Finish): Best {
    var c := b.(attempts := b.attempts + 1,
                recent := if |b.recent| < RECENT then b.recent + [(f.seconds, f.endedAt)] else b.recent);
    if f.seconds < c.seconds then c.(seconds := f.seconds, setAt := f.endedAt)
    else if f.seconds == c.seconds && f.endedAt < c.setAt then c.(setAt := f.endedAt)
    else c
  }

  lemma NoteSums(mine: seq<Finish>, b: Best, f: Finish)
    requires Sums(mine, b)
    ensures Sums(mine + [f], Note(b, f))
  {
    var all, c := mine + [f], Note(b, f);
    assert c.recent == FirstFew(all);
    var h :| h in mine && h.seconds == b.seconds && h.endedAt == b.setAt;
    assert h in all && f in all;
  }

  lemma FirstSums(f: Finish)
    ensures Sums([f], Note(Best(f.seconds, 0, f.endedAt, []), f))
  {
    assert f in [f];
    assert FirstFew([f]) == [(f.seconds, f.endedAt)];
  }

  ghost predicate Board(rows: seq<Finish>, best: map<string, Best>) {
    && (forall activity :: activity in best <==> Of(rows, activity) != [])
    && (forall activity :: activity in best ==> Sums(Of(rows, activity), best[activity]))
  }

  lemma OfNext(rows: seq<Finish>, f: Finish, activity: string)
    ensures Of(rows + [f], activity) == if f.activity == activity then Of(rows, activity) + [f] else Of(rows, activity)
  {
    assert (rows + [f])[..|rows|] == rows;
  }

  function LineFor(best: map<string, Best>, f: Finish): Best {
    if f.activity in best then best[f.activity] else Best(f.seconds, 0, f.endedAt, [])
  }

  lemma BoardNext(rows: seq<Finish>, best: map<string, Best>, f: Finish)
    requires Board(rows, best)
    ensures Board(rows + [f], best[f.activity := Note(LineFor(best, f), f)])
  {
    hide Of, Sums, Note;
    forall activity
      ensures Of(rows + [f], activity) == if f.activity == activity then Of(rows, activity) + [f] else Of(rows, activity)
    {
      OfNext(rows, f, activity);
    }
    var next := best[f.activity := Note(LineFor(best, f), f)];
    if f.activity in best {
      NoteSums(Of(rows, f.activity), best[f.activity], f);
    } else {
      assert Of(rows + [f], f.activity) == [f];
      FirstSums(f);
    }
    assert forall activity :: activity in next ==> Sums(Of(rows + [f], activity), next[activity]);
  }

  /** One line per activity that has a row, summing that activity's rows. */
  method SpeedrunBests(rows: seq<Finish>) returns (best: map<string, Best>)
    ensures Board(rows, best)
  {
    best := map[];
    var i := 0;
    while i < |rows|
      invariant 0 <= i <= |rows|
      invariant Board(rows[..i], best)
    {
      var f := rows[i];
      assert rows[..i + 1] == rows[..i] + [f];
      BoardNext(rows[..i], best, f);
      best := best[f.activity := Note(LineFor(best, f), f)];
      i := i + 1;
    }
    assert rows[..i] == rows;
  }

  /** The order of the rows does not matter to the record, its date and the count. */
  lemma RowOrderIrrelevant(xs: seq<Finish>, ys: seq<Finish>, b: Best, c: Best)
    requires Sums(xs, b) && Sums(ys, c) && multiset(xs) == multiset(ys)
    ensures b.seconds == c.seconds && b.setAt == c.setAt && b.attempts == c.attempts
  {
    assert |multiset(xs)| == |xs| && |multiset(ys)| == |ys|;
    assert forall f :: f in xs <==> f in ys by {
      assert forall f :: f in xs <==> f in multiset(xs);
      assert forall f :: f in ys <==> f in multiset(ys);
    }
    var f :| f in xs && f.seconds == b.seconds && f.endedAt == b.setAt;
    var g :| g in ys && g.seconds == c.seconds && g.endedAt == c.setAt;
  }

  lemma {:induction false} OfHolds(rows: seq<Finish>, activity: string, f: Finish)
    ensures f in Of(rows, activity) <==> f in rows && f.activity == activity
  {
    if rows != [] {
      assert rows == rows[..|rows| - 1] + [rows[|rows| - 1]];
      OfHolds(rows[..|rows| - 1], activity, f);
    }
  }

  /** The board, the MIN query and the record events agree: on any arrangement of the eligible
      rows of a history, the board shows the standing record and a date no later than its event's.
      The dates agree exactly when no run that only ties it, committed later, ended earlier. */
  lemma BoardMatchesRecords(history: seq<Finish>, rows: seq<Finish>, activity: string, b: Best) returns (i: nat)
    requires forall f :: f in rows <==> f in history && f.seconds >= MIN_RECORD_SECONDS
    requires Of(rows, activity) != [] && Sums(Of(rows, activity), b)
    ensures StandingRecord(history, activity) == Some(b.seconds)
    ensures
      var all := Announcements(history, activity);
      && all != [] && all[|all| - 1].seconds == b.seconds
      && FirstWith(history, activity, b.seconds, i) && all[|all| - 1].at == history[i].endedAt
      && b.setAt <= history[i].endedAt
      && (b.setAt == history[i].endedAt <==> NoEarlierTie(history, activity, i))
  {
    var mine := Of(rows, activity);
    forall f ensures f in mine <==> f in history && Eligible(f, activity) { OfHolds(rows, activity, f); }
    StandingIsLeast(history, activity);
    RecordsImprove(history, activity);
    i := RecordSetter(history, activity);
    assert history[i] in mine;
    var owner :| owner in mine && owner.seconds == b.seconds && owner.endedAt == b.setAt;
    var k :| 0 <= k < |history| && history[k] == owner;
    forall j | 0 <= j < |history| && Eligible(history[j], activity) && history[j].seconds == b.seconds
      ensures b.setAt <= history[j].endedAt
    {
      assert history[j] in mine;
    }
  }
}
