/** The token budget of one user on one UTC day: a shared counter that every request prepays,
    then refunds or settles. Each operation is one conditional update. */
module Budget {
  import opened Basics

  /** The counter row of the day; None before the first reservation. */
  type CounterRow = Option<int>

  function Counted(row: CounterRow): int { if row.Some? then row.value else 0 }

  datatype Reserved = Admitted(row: CounterRow) | OverBudget

  /** A cap of zero or less turns the gate off. The row a refused request created goes with
      its transaction. */
  function ReserveRow(row: CounterRow, cap: int, estimate: nat): Reserved {
    if cap <= 0 then Admitted(row)
    else if Counted(row) + estimate <= cap then Admitted(Some(Counted(row) + estimate))
    else OverBudget
  }

  /** A missing row is skipped. */
  function RefundRow(row: CounterRow, cap: int, estimate: nat): CounterRow {
    if cap <= 0 || row.None? then row else Some(row.value - estimate)
  }

  datatype Settled = Reconciled(row: CounterRow) | RowMissing

  function ReconcileRow(row: CounterRow, cap: int, estimate: nat, actual: nat): Settled {
    if cap <= 0 then Reconciled(row)
    else if row.None? then RowMissing
    else Reconciled(Some(row.value + (actual - estimate)))
  }

  /** A reservation is undone by its refund, and leaves what was spent once it is settled; whatever
      the counter held before. */
  lemma ReserveLaw(row: CounterRow, cap: int, estimate: nat, actual: nat)
    requires cap > 0
    ensures
      match ReserveRow(row, cap, estimate)
      case OverBudget => Counted(row) + estimate > cap
      case Admitted(held) =>
        && Counted(row) + estimate <= cap
        && Counted(held) == Counted(row) + estimate
        && RefundRow(held, cap, estimate) == Some(Counted(row))
        && ReconcileRow(held, cap, estimate, actual) == Reconciled(Some(Counted(row) + actual))
  {}

  /** The counter as the code updates it. */
  class DayCounter {
    const cap: int
    var row: CounterRow

    constructor (limit: int)
      ensures cap == limit && row == None
    {
      cap, row := limit, None;
    }

    method Reserve(estimate: nat) returns (ok: bool)
      modifies this
      ensures ok == ReserveRow(old(row), cap, estimate).Admitted?
      ensures row == if ok then ReserveRow(old(row), cap, estimate).row else old(row)
      ensures ok && cap > 0 ==> Counted(row) <= cap
    {
      if cap <= 0 {
        return true;
      }
      var before := row;
      if row.None? {
        row := Some(0);
      }
      ok := row.value + estimate <= cap;
      if ok {
        row := Some(row.value + estimate);
      } else {
        row := before;
      }
    }

    method Refund(estimate: nat) returns (found: bool)
      modifies this
      ensures row == RefundRow(old(row), cap, estimate)
      ensures found <==> cap <= 0 || old(row).Some?
    {
      if cap <= 0 {
        return true;
      }
      found := row.Some?;
      if found {
        row := Some(row.value - estimate);
      }
    }

    method Reconcile(estimate: nat, actual: nat) returns (ok: bool)
      modifies this
      ensures ok == ReconcileRow(old(row), cap, estimate, actual).Reconciled?
      ensures row == if ok then ReconcileRow(old(row), cap, estimate, actual).row else old(row)
    {
      if cap <= 0 {
        return true;
      }
      ok := row.Some?;
      if ok {
        row := Some(row.value + (actual - estimate));
      }
    }
  }

  // --- Requests side by side -----------------------------------------------------------------

  /** A request prepays its estimate, then either gives it back or settles the actual spend.
      One that dies in between keeps its estimate booked. */
  datatype Request =
    | Waiting(estimate: nat)
    | Holding(estimate: nat)
    | Rejected
    | Refunded
    | Spent(estimate: nat, actual: nat)

  datatype Day = Day(cap: int, row: CounterRow, requests: seq<Request>)

  datatype Step = Reserve(i: nat) | Refund(i: nat) | Reconcile(i: nat, actual: nat)

  predicate Enabled(d: Day, step: Step) {
    step.i < |d.requests| && if step.Reserve? then d.requests[step.i].Waiting? else d.requests[step.i].Holding?
  }

  /** The code's error path of a vanished counter row leaves the request holding. */
  function Take(d: Day, step: Step): Day
    requires Enabled(d, step)
  {
    var r := d.requests[step.i];
    match step
    case Reserve(i) =>
      var out := ReserveRow(d.row, d.cap, r.estimate);
      if out.OverBudget? then d.(requests := d.requests[i := Rejected])
      else d.(row := out.row, requests := d.requests[i := Holding(r.estimate)])
    case Refund(i) => d.(row := RefundRow(d.row, d.cap, r.estimate), requests := d.requests[i := Refunded])
    case Reconcile(i, actual) =>
      var out := ReconcileRow(d.row, d.cap, r.estimate, actual);
      if out.RowMissing? then d
      else d.(row := out.row, requests := d.requests[i := Spent(r.estimate, actual)])
  }

  function Run(d: Day, steps: seq<Step>): Option<Day>
    decreases |steps|
  {
    if steps == [] then Some(d) else if Enabled(d, steps[0]) then Run(Take(d, steps[0]), steps[1..]) else None
  }

  /** What one request has booked. */
  function Booked(r: Request): nat {
    match r
    case Holding(estimate) => estimate
    case Spent(_, actual) => actual
    case _ => 0
  }

  /** What a request spent beyond its estimate. */
  function Overrun(r: Request): nat { if r.Spent? && r.actual > r.estimate then r.actual - r.estimate else 0 }

  function TotalBooked(rs: seq<Request>): nat {
    if rs == [] then 0 else TotalBooked(rs[..|rs| - 1]) + Booked(rs[|rs| - 1])
  }

  function TotalOverrun(rs: seq<Request>): nat {
    if rs == [] then 0 else TotalOverrun(rs[..|rs| - 1]) + Overrun(rs[|rs| - 1])
  }

  lemma {:induction false} TotalsAfter(rs: seq<Request>, i: nat, r: Request)
    requires i < |rs|
    ensures TotalBooked(rs[i := r]) == TotalBooked(rs) - Booked(rs[i]) + Booked(r)
    ensures TotalOverrun(rs[i := r]) == TotalOverrun(rs) - Overrun(rs[i]) + Overrun(r)
  {
    var last := |rs| - 1;
    if i < last {
      assert rs[i := r][..last] == rs[..last][i := r];
      TotalsAfter(rs[..last], i, r);
    } else {
      assert rs[i := r][..last] == rs[..last];
    }
  }

  /** The counter is outstanding estimates plus settled spend, never negative, and over the
      cap only by what settled requests overran; whoever holds a reservation finds its row. */
  ghost predicate Balanced(d: Day) {
    d.cap > 0 ==>
      && Counted(d.row) == TotalBooked(d.requests)
      && Counted(d.row) <= d.cap + TotalOverrun(d.requests)
      && forall r :: r in d.requests && (r.Holding? || r.Spent?) ==> d.row.Some?
  }

  lemma StepBalances(d: Day, step: Step)
    requires Balanced(d) && Enabled(d, step)
    ensures Balanced(Take(d, step)) && Take(d, step).cap == d.cap
    ensures
      var next := Take(d, step);
      && (step.Reserve? && d.cap > 0 ==>
            && (next.requests[step.i].Holding? <==> Counted(d.row) + d.requests[step.i].estimate <= d.cap)
            && (next.requests[step.i].Holding? ==> Counted(next.row) <= d.cap)
            && (next.requests[step.i].Rejected? ==> next.row == d.row))
      && (!step.Reserve? ==> !next.requests[step.i].Holding?)
  {
    var next := Take(d, step);
    assert d.requests[step.i] in d.requests;
    TotalsAfter(d.requests, step.i, next.requests[step.i]);
    assert next.requests == d.requests[step.i := next.requests[step.i]];
    forall r | d.cap > 0 && r in next.requests && (r.Holding? || r.Spent?) ensures next.row.Some? {
      if next.requests[step.i] != r { assert r in d.requests; }
    }
  }

  /** Under every interleaving of any number of requests the books balance. */
  lemma {:induction false} AlwaysBalanced(d: Day, steps: seq<Step>)
    requires Balanced(d) && Run(d, steps).Some?
    ensures Balanced(Run(d, steps).value) && Run(d, steps).value.cap == d.cap
    ensures d.cap > 0 ==> Counted(Run(d, steps).value.row) >= 0
    decreases |steps|
  {
    hide Balanced;
    if steps != [] {
      StepBalances(d, steps[0]);
      AlwaysBalanced(Take(d, steps[0]), steps[1..]);
    } else {
      NeverNegative(d);
    }
  }

  lemma NeverNegative(d: Day)
    requires Balanced(d)
    ensures d.cap > 0 ==> Counted(d.row) >= 0
  {}

  /** A day starts balanced, with no row and everybody waiting. */
  lemma FreshDayBalances(d: Day)
    requires d.row == None && forall r :: r in d.requests ==> r.Waiting?
    ensures Balanced(d)
  {
    NobodyBooked(d.requests);
  }

  lemma {:induction false} NobodyBooked(rs: seq<Request>)
    requires forall r :: r in rs ==> r.Waiting?
    ensures TotalBooked(rs) == 0
  {
    if rs != [] {
      assert rs[|rs| - 1] in rs && forall r :: r in rs[..|rs| - 1] ==> r in rs;
      NobodyBooked(rs[..|rs| - 1]);
    }
  }

  // --- Nothing leaks --------------------------------------------------------------------------

  ghost predicate AllRefunded(d: Day) {
    forall r :: r in d.requests ==> r.Waiting? || r.Rejected? || r.Refunded?
  }

  /** When every admitted request has been refunded the counter is back at zero. */
  lemma RefundsUndo(d: Day)
    requires Balanced(d) && d.cap > 0 && AllRefunded(d)
    ensures Counted(d.row) == 0
  {
    NothingHeld(d.requests);
  }

  lemma {:induction false} NothingHeld(rs: seq<Request>)
    requires forall r :: r in rs ==> r.Waiting? || r.Rejected? || r.Refunded?
    ensures TotalBooked(rs) == 0
  {
    if rs != [] {
      assert rs[|rs| - 1] in rs && forall r :: r in rs[..|rs| - 1] ==> r in rs;
      NothingHeld(rs[..|rs| - 1]);
    }
  }
}
